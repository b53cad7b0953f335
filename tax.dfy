/** Progressive-bracket federal tax estimate over the 2024 single-filer table. */
module TaxEstimator {

  /** A bracket's upper bound; the top bracket has none (`float('inf')`). */
  datatype Bound = Finite(value: real) | Unbounded

  datatype Bracket = Bracket(lower: real, upper: Bound, rate: real)

  /** One row of the breakdown: the bracket, the income taxed in it, and that tax. */
  datatype BracketShare = BracketShare(bracket: Bracket, taxableAmount: real, taxAmount: real)

  datatype TaxEstimate = TaxEstimate(
    totalTax: real,
    effectiveRate: real,
    afterTaxIncome: real,
    breakdown: seq<BracketShare>)

  /** The 2024 single-filer brackets. */
  const SingleBrackets: seq<Bracket> := [
    Bracket(0.0, Finite(11000.0), 0.10),
    Bracket(11000.0, Finite(44725.0), 0.12),
    Bracket(44725.0, Finite(95375.0), 0.22),
    Bracket(95375.0, Finite(182050.0), 0.24),
    Bracket(182050.0, Finite(231250.0), 0.32),
    Bracket(231250.0, Finite(578125.0), 0.35),
    Bracket(578125.0, Unbounded, 0.37)
  ]

  /** The tables by filing status; only "single" exists. */
  const TaxBrackets2024: map<string, seq<Bracket>> := map["single" := SingleBrackets]

  /** The table for a filing status; any unknown status falls back to "single". */
  function BracketsFor(filingStatus: string): seq<Bracket> {
    if filingStatus in TaxBrackets2024 then TaxBrackets2024[filingStatus] else TaxBrackets2024["single"]
  }

  /** Every filing status is taxed on the single-filer table. */
  lemma EveryStatusIsSingle(filingStatus: string)
    ensures BracketsFor(filingStatus) == SingleBrackets
  {
  }

  /** `min(income, upper)`. */
  function CapAt(income: real, upper: Bound): real {
    match upper
    case Unbounded => income
    case Finite(u) => if income <= u then income else u
  }

  /** `min(income, upper) - lower`: the income falling in bracket `b`. */
  function TaxableIn(b: Bracket, income: real): real {
    CapAt(income, b.upper) - b.lower
  }

  /** The row the loop appends for bracket `b`: none when no income falls in it. */
  function Row(b: Bracket, income: real): seq<BracketShare> {
    var taxable := TaxableIn(b, income);
    if taxable > 0.0 then [BracketShare(b, taxable, TaxIn(b, income))] else []
  }

  /** `taxable_in_bracket * rate`. */
  function TaxIn(b: Bracket, income: real): real {
    TaxableIn(b, income) * b.rate
  }

  /** The rows the loop appends, from the first bracket until income no longer exceeds a lower bound. */
  function Breakdown(bs: seq<Bracket>, income: real): seq<BracketShare>
    decreases |bs|
  {
    if |bs| == 0 || income <= bs[0].lower then []
    else Row(bs[0], income) + Breakdown(bs[1..], income)
  }

  /** The tax the loop accumulates over the same brackets. */
  function TotalTax(bs: seq<Bracket>, income: real): real
    decreases |bs|
  {
    if |bs| == 0 || income <= bs[0].lower then 0.0
    else TaxIn(bs[0], income) + TotalTax(bs[1..], income)
  }

  /** The walk stops at the end of the table or at a bracket starting at or above the income. */
  lemma BracketStop(bs: seq<Bracket>, income: real)
    requires |bs| == 0 || income <= bs[0].lower
    ensures Breakdown(bs, income) == [] && TotalTax(bs, income) == 0.0
  {
  }

  /** One step of the walk at position `i`: a bracket below the income contributes its row and its tax. */
  lemma BracketStep(bs: seq<Bracket>, i: nat, income: real)
    requires i < |bs| && bs[i].lower < income
    ensures Breakdown(bs[i..], income) == Row(bs[i], income) + Breakdown(bs[i + 1..], income)
    ensures TotalTax(bs[i..], income) == TaxIn(bs[i], income) + TotalTax(bs[i + 1..], income)
  {
    assert bs[i..][0] == bs[i];
    assert bs[i..][1..] == bs[i + 1..];
  }

  /** `total_tax / income * 100`, or 0 when the income is not positive. */
  function EffectiveRate(totalTax: real, income: real): real {
    if income > 0.0 then totalTax / income * 100.0 else 0.0
  }

  /** The estimate over a bracket table. */
  function Estimate(bs: seq<Bracket>, income: real): TaxEstimate {
    var total := TotalTax(bs, income);
    TaxEstimate(total, EffectiveRate(total, income), income - total, Breakdown(bs, income))
  }

  /**
   * `calculate_tax_estimate(income, filing_status)` over the analyzer's table
   * of brackets by filing status (`tax_brackets_2024`).
   */
  method CalculateTaxEstimate(table: map<string, seq<Bracket>>, income: real, filingStatus: string)
    returns (est: TaxEstimate)
    requires "single" in table
    ensures est == Estimate(if filingStatus in table then table[filingStatus] else table["single"], income)
  {
    var brackets := if filingStatus in table then table[filingStatus] else table["single"];
    var totalTax := 0.0;
    var breakdown: seq<BracketShare> := [];
    var i := 0;
    while i < |brackets|
      invariant 0 <= i <= |brackets|
      invariant breakdown + Breakdown(brackets[i..], income) == Breakdown(brackets, income)
      invariant totalTax + TotalTax(brackets[i..], income) == TotalTax(brackets, income)
    {
      var b := brackets[i];
      if income <= b.lower {
        BracketStop(brackets[i..], income);
        break;
      }
      var taxable := TaxableIn(b, income);
      var tax := TaxIn(b, income);
      BracketStep(brackets, i, income);
      ghost var before := breakdown;
      totalTax := totalTax + tax;
      if taxable > 0.0 {
        breakdown := breakdown + [BracketShare(b, taxable, tax)];
      } else {
        assert breakdown == before + [];
      }
      assert breakdown == before + Row(b, income);
      AppendAssoc(before, Row(b, income), Breakdown(brackets[i + 1..], income));
      i := i + 1;
    }
    if i == |brackets| {
      BracketStop(brackets[i..], income);
    }
    assert breakdown == Breakdown(brackets, income);
    assert totalTax == TotalTax(brackets, income);
    var effectiveRate := EffectiveRate(totalTax, income);
    est := TaxEstimate(totalTax, effectiveRate, income - totalTax, breakdown);
  }

  lemma AppendAssoc<T>(a: seq<T>, b: seq<T>, c: seq<T>)
    ensures (a + b) + c == a + (b + c)
  {
  }

  /**
   * A table without gaps or overlaps: each bracket ends where the next one
   * starts, lower bounds strictly increase, and only the last is unbounded.
   */
  predicate WellFormed(bs: seq<Bracket>)
    decreases |bs|
  {
    |bs| > 0 &&
    if |bs| == 1 then bs[0].upper == Unbounded
    else bs[0].upper == Finite(bs[1].lower) && bs[0].lower < bs[1].lower && WellFormed(bs[1..])
  }

  /** Every rate of the table lies in `[lo, hi]`. */
  predicate RatesWithin(bs: seq<Bracket>, lo: real, hi: real) {
    forall k :: 0 <= k < |bs| ==> lo <= bs[k].rate <= hi
  }

  function SumTaxable(rows: seq<BracketShare>): real {
    if |rows| == 0 then 0.0 else rows[0].taxableAmount + SumTaxable(rows[1..])
  }

  function SumTax(rows: seq<BracketShare>): real {
    if |rows| == 0 then 0.0 else rows[0].taxAmount + SumTax(rows[1..])
  }

  /** A row taxes a positive amount, at most the width of its bracket, at the bracket's rate. */
  predicate RowWithinBracket(row: BracketShare) {
    0.0 < row.taxableAmount &&
    row.taxAmount == row.taxableAmount * row.bracket.rate &&
    (row.bracket.upper.Finite? ==> row.taxableAmount <= row.bracket.upper.value - row.bracket.lower)
  }

  lemma SingleBracketsWellFormed()
    ensures WellFormed(SingleBrackets) && SingleBrackets[0].lower == 0.0
    ensures RatesWithin(SingleBrackets, 0.10, 0.37)
  {
    var bs := SingleBrackets;
    assert WellFormed(bs[6..]);
    assert WellFormed(bs[5..]) by { assert bs[5..][1..] == bs[6..]; }
    assert WellFormed(bs[4..]) by { assert bs[4..][1..] == bs[5..]; }
    assert WellFormed(bs[3..]) by { assert bs[3..][1..] == bs[4..]; }
    assert WellFormed(bs[2..]) by { assert bs[2..][1..] == bs[3..]; }
    assert WellFormed(bs[1..]) by { assert bs[1..][1..] == bs[2..]; }
  }

  /**
   * Over a well-formed table and an income above its floor, the breakdown
   * lists the table's brackets in order from the first, each row within its
   * bracket, their taxable amounts add up to the income above the floor and
   * their taxes to the accumulated total.
   */
  lemma {:induction false} BreakdownCoversIncome(bs: seq<Bracket>, income: real)
    requires WellFormed(bs) && bs[0].lower < income
    ensures var rows := Breakdown(bs, income);
      0 < |rows| <= |bs| &&
      (forall k :: 0 <= k < |rows| ==> rows[k].bracket == bs[k] && RowWithinBracket(rows[k])) &&
      SumTaxable(rows) == income - bs[0].lower &&
      SumTax(rows) == TotalTax(bs, income)
    decreases |bs|
  {
    var rows := Breakdown(bs, income);
    var row := BracketShare(bs[0], TaxableIn(bs[0], income), TaxIn(bs[0], income));
    assert Row(bs[0], income) == [row];
    if |bs| == 1 || income <= bs[1].lower {
      assert Breakdown(bs[1..], income) == [];
      assert rows == [row];
    } else {
      BreakdownCoversIncome(bs[1..], income);
      assert rows == [row] + Breakdown(bs[1..], income);
    }
  }

  /** Taxes at rates within `[lo, hi]` lie between `lo` and `hi` times the taxed amount. */
  lemma {:induction false} TaxBetweenRates(rows: seq<BracketShare>, lo: real, hi: real)
    requires forall k :: 0 <= k < |rows| ==>
      RowWithinBracket(rows[k]) && lo <= rows[k].bracket.rate <= hi
    ensures lo * SumTaxable(rows) <= SumTax(rows) <= hi * SumTaxable(rows)
  {
    if |rows| > 0 {
      var r, tail := rows[0], rows[1..];
      RowsTail(rows, lo, hi);
      TaxBetweenRates(tail, lo, hi);
      assert SumTaxable(rows) == r.taxableAmount + SumTaxable(tail);
      assert SumTax(rows) == r.taxAmount + SumTax(tail);
      RowBetweenRates(r.taxableAmount, r.bracket.rate, r.taxAmount, SumTaxable(tail), SumTax(tail), lo, hi);
    }
  }

  lemma RowsTail(rows: seq<BracketShare>, lo: real, hi: real)
    requires |rows| > 0
    requires forall k :: 0 <= k < |rows| ==>
      RowWithinBracket(rows[k]) && lo <= rows[k].bracket.rate <= hi
    ensures RowWithinBracket(rows[0]) && lo <= rows[0].bracket.rate <= hi
    ensures forall k :: 0 <= k < |rows[1..]| ==>
      RowWithinBracket(rows[1..][k]) && lo <= rows[1..][k].bracket.rate <= hi
  {
    forall k | 0 <= k < |rows[1..]|
      ensures RowWithinBracket(rows[1..][k]) && lo <= rows[1..][k].bracket.rate <= hi
    {
      assert rows[1..][k] == rows[k + 1];
    }
  }

  /** Adding one row taxed at a rate in `[lo, hi]` keeps the sums between the two rates. */
  lemma RowBetweenRates(t: real, rate: real, tax: real, restTaxable: real, restTax: real, lo: real, hi: real)
    requires 0.0 <= t && lo <= rate <= hi && tax == t * rate
    requires lo * restTaxable <= restTax <= hi * restTaxable
    ensures lo * (t + restTaxable) <= tax + restTax <= hi * (t + restTaxable)
  {
    assert (rate - lo) * t >= 0.0;
    assert (hi - rate) * t >= 0.0;
    assert lo * (t + restTaxable) == lo * t + lo * restTaxable;
    assert hi * (t + restTaxable) == hi * t + hi * restTaxable;
  }

  /**
   * The estimate over any well-formed table starting at 0 with rates in
   * `[lo, hi]`, for any non-negative income: after-tax income and tax add up
   * to the income; the effective rate is zero exactly for zero income (when
   * `lo` is positive); the breakdown walks the table in order, each row
   * within its bracket, and splits the whole income; so the tax lies between
   * `lo` and `hi` times the income.
   */
  lemma EstimateProperties(bs: seq<Bracket>, income: real, lo: real, hi: real)
    requires WellFormed(bs) && bs[0].lower == 0.0 && RatesWithin(bs, lo, hi) && 0.0 < lo
    requires 0.0 <= income
    ensures var est := Estimate(bs, income);
      est.afterTaxIncome + est.totalTax == income &&
      (est.effectiveRate == 0.0 <==> income == 0.0) &&
      |est.breakdown| <= |bs| &&
      (forall k :: 0 <= k < |est.breakdown| ==>
        est.breakdown[k].bracket == bs[k] && RowWithinBracket(est.breakdown[k])) &&
      SumTaxable(est.breakdown) == income &&
      SumTax(est.breakdown) == est.totalTax &&
      lo * income <= est.totalTax <= hi * income
  {
    var est := Estimate(bs, income);
    if income == 0.0 {
      assert est.breakdown == [] && est.totalTax == 0.0;
    } else {
      BreakdownCoversIncome(bs, income);
      TaxBetweenRates(est.breakdown, lo, hi);
    }
  }

  /** The lower bounds of the single-filer table strictly increase. */
  lemma SingleBracketsAscending()
    ensures forall i, j :: 0 <= i < j < |SingleBrackets| ==> SingleBrackets[i].lower < SingleBrackets[j].lower
  {
  }

  /**
   * `calculate_tax_estimate` for any non-negative income and filing status:
   * after-tax income and tax add up to the income, the effective rate is
   * zero exactly for zero income, the breakdown lists single-filer brackets
   * in ascending order, each row within its bracket, splitting the whole
   * income, and the tax lies between 10% and 37% of the income.
   */
  lemma TaxEstimateProperties(income: real, filingStatus: string)
    requires 0.0 <= income
    ensures var est := Estimate(BracketsFor(filingStatus), income);
      est.afterTaxIncome + est.totalTax == income &&
      (est.effectiveRate == 0.0 <==> income == 0.0) &&
      |est.breakdown| <= |SingleBrackets| &&
      (forall k :: 0 <= k < |est.breakdown| ==>
        est.breakdown[k].bracket == SingleBrackets[k] && RowWithinBracket(est.breakdown[k])) &&
      (forall i, j :: 0 <= i < j < |est.breakdown| ==>
        est.breakdown[i].bracket.lower < est.breakdown[j].bracket.lower) &&
      SumTaxable(est.breakdown) == income &&
      SumTax(est.breakdown) == est.totalTax &&
      0.10 * income <= est.totalTax <= 0.37 * income
  {
    EveryStatusIsSingle(filingStatus);
    SingleBracketsWellFormed();
    SingleBracketsAscending();
    EstimateProperties(SingleBrackets, income, 0.10, 0.37);
  }

  /** The sample student's income of 15000 owes 1100 + 480 = 1580 (an effective rate of about 10.53%). */
  lemma SampleStudentTax()
    ensures Estimate(SingleBrackets, 15000.0).totalTax == 1580.0
    ensures |Estimate(SingleBrackets, 15000.0).breakdown| == 2
  {
    var bs := SingleBrackets;
    assert TotalTax(bs[2..], 15000.0) == 0.0;
    assert Breakdown(bs[2..], 15000.0) == [];
    assert bs[1..][1..] == bs[2..];
    assert TotalTax(bs[1..], 15000.0) == 480.0;
  }
}
