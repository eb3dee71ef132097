/**
 * The tax commands: the federal request pipeline (deductions, taxable
 * income, credits, state add-on), the standalone state command, the bracket
 * lookup and the quarterly estimate.
 */
module TaxCommands {
  import opened Wrappers
  import opened TaxEngine
  import opened StateTaxes

  /** The year a command uses when none is given. */
  const DefaultTaxYear: int := 2024

  datatype TaxCalculationRequest = TaxCalculationRequest(
    grossIncome: Money,
    filingStatus: string,
    deductions: Option<Money>,
    credits: Option<Money>,
    state: Option<string>,
    taxYear: Option<int>)

  /** One breakdown line of the response. */
  datatype BracketBreakdown = BracketBreakdown(
    bracketMin: Money,
    bracketMax: Bound,
    rate: Rate,
    taxableInBracket: Money,
    taxFromBracket: Money)

  datatype TaxCalculationResponse = TaxCalculationResponse(
    grossIncome: Money,
    standardDeduction: Money,
    totalDeductions: Money,
    taxableIncome: Money,
    federalTax: Money,
    stateTax: Money,
    totalTax: Money,
    effectiveRate: Rate,
    marginalRate: Rate,
    taxCredits: Money,
    taxAfterCredits: Money,
    breakdown: seq<BracketBreakdown>)

  datatype QuarterlyEstimate = QuarterlyEstimate(
    annualTax: Money,
    withholding: Money,
    remainingTax: Money,
    quarterlyPayment: Money,
    dueDates: seq<string>)

  /** The four fixed due dates of the estimate. */
  const QuarterlyDueDates: seq<string> := ["April 15, 2024", "June 17, 2024", "September 16, 2024", "January 15, 2025"]

  // ---------------------------------------------------------------------
  // The steps of calculate_federal_tax
  // ---------------------------------------------------------------------

  /** Itemized deductions count only when they beat the standard deduction. */
  function TotalDeductions(deductions: Option<Money>, standard: Money): (r: Money)
    ensures r >= standard
    ensures deductions.None? ==> r == standard
    ensures deductions.Some? ==> r >= deductions.value && (r == deductions.value || r == standard)
  {
    match deductions
    case Some(d) => Max(d, standard)
    case None => standard
  }

  /** Income minus deductions, never below zero. */
  function TaxableIncome(grossIncome: Money, totalDeductions: Money): (r: Money)
    ensures r >= 0.0 && r >= grossIncome - totalDeductions
    ensures r == grossIncome - totalDeductions || r == 0.0
  {
    Max(grossIncome - totalDeductions, 0.0)
  }

  /** Federal tax minus credits, never below zero. */
  function TaxAfterCredits(federalTax: Money, credits: Money): (r: Money)
    ensures r >= 0.0 && r >= federalTax - credits
    ensures r == federalTax - credits || r == 0.0
  {
    Max(federalTax - credits, 0.0)
  }

  /** The state add-on: none without a state, and an unsupported state also counts as none. */
  function StateAddOn(taxableIncome: Money, state: Option<string>, taxYear: int): (r: Money)
    ensures state.None? ==> r == 0.0
    ensures state.Some? && CalculateStateTax(taxableIncome, state.value, taxYear).Ok? ==>
      r == CalculateStateTax(taxableIncome, state.value, taxYear).value
    ensures state.Some? && CalculateStateTax(taxableIncome, state.value, taxYear).Err? ==> r == 0.0
  {
    match state
    case Some(s) => CalculateStateTax(taxableIncome, s, taxYear).UnwrapOr(0.0)
    case None => 0.0
  }

  function ToBreakdown(d: BracketDetail): BracketBreakdown {
    BracketBreakdown(d.min, d.max, d.rate, d.taxableAmount, d.taxAmount)
  }

  /** The response's breakdown: the engine's details, field for field, in order. */
  function CopyBreakdown(ds: seq<BracketDetail>): (r: seq<BracketBreakdown>)
    ensures |r| == |ds|
    ensures forall i :: 0 <= i < |ds| ==>
      && r[i].bracketMin == ds[i].min && r[i].bracketMax == ds[i].max && r[i].rate == ds[i].rate
      && r[i].taxableInBracket == ds[i].taxableAmount && r[i].taxFromBracket == ds[i].taxAmount
  {
    seq(|ds|, i requires 0 <= i < |ds| => ToBreakdown(ds[i]))
  }

  function SumFromBrackets(bs: seq<BracketBreakdown>): Money {
    Sum(seq(|bs|, i requires 0 <= i < |bs| => bs[i].taxFromBracket))
  }

  function SumInBrackets(bs: seq<BracketBreakdown>): Money {
    Sum(seq(|bs|, i requires 0 <= i < |bs| => bs[i].taxableInBracket))
  }

  /** The copied breakdown adds up to the same totals as the details. */
  lemma CopyBreakdownSums(ds: seq<BracketDetail>)
    ensures SumFromBrackets(CopyBreakdown(ds)) == SumTax(ds)
    ensures SumInBrackets(CopyBreakdown(ds)) == SumTaxable(ds)
  {
    var bs := CopyBreakdown(ds);
    assert seq(|bs|, i requires 0 <= i < |bs| => bs[i].taxFromBracket) == TaxAmounts(ds);
    assert seq(|bs|, i requires 0 <= i < |bs| => bs[i].taxableInBracket) == TaxableAmounts(ds);
  }

  /**
   * The response once the filing status has parsed to `status` and the year
   * has been defaulted.
   */
  function Respond(
    grossIncome: Money, deductions: Option<Money>, credits: Option<Money>, state: Option<string>,
    status: FilingStatus, year: int): (r: TaxCalculationResponse)
    ensures
      && r.grossIncome == grossIncome
      && r.standardDeduction == StandardDeduction(status, year)
      && r.totalDeductions == TotalDeductions(deductions, r.standardDeduction)
      && r.taxableIncome == TaxableIncome(grossIncome, r.totalDeductions)
      && r.federalTax == CalculateTax(r.taxableIncome, status, year).totalTax
      && r.marginalRate == CalculateTax(r.taxableIncome, status, year).marginalRate
      && r.taxCredits == credits.UnwrapOr(0.0)
      && r.taxAfterCredits == TaxAfterCredits(r.federalTax, r.taxCredits)
      && r.stateTax == StateAddOn(r.taxableIncome, state, year)
      && r.breakdown == CopyBreakdown(CalculateTax(r.taxableIncome, status, year).bracketDetails)
    ensures r.totalTax == r.taxAfterCredits + r.stateTax
    ensures r.taxableIncome > 0.0 ==> r.effectiveRate == r.taxAfterCredits / r.taxableIncome
    ensures r.taxableIncome <= 0.0 ==> r.effectiveRate == 0.0 && r.federalTax == 0.0 && r.breakdown == []
    ensures SumFromBrackets(r.breakdown) == r.federalTax
    ensures r.taxableIncome > 0.0 ==> SumInBrackets(r.breakdown) == r.taxableIncome
  {
    var standard := StandardDeduction(status, year);
    var total := TotalDeductions(deductions, standard);
    var taxable := TaxableIncome(grossIncome, total);
    var calculation := CalculateTax(taxable, status, year);
    var taxCredits := credits.UnwrapOr(0.0);
    var afterCredits := TaxAfterCredits(calculation.totalTax, taxCredits);
    var stateTax := StateAddOn(taxable, state, year);
    CopyBreakdownSums(calculation.bracketDetails);
    TaxCalculationResponse(
      grossIncome,
      standard,
      total,
      taxable,
      calculation.totalTax,
      stateTax,
      afterCredits + stateTax,
      if taxable > 0.0 then afterCredits / taxable else 0.0,
      calculation.marginalRate,
      taxCredits,
      afterCredits,
      CopyBreakdown(calculation.bracketDetails))
  }

  /** `calculate_federal_tax`: an unknown filing status is reported before anything is computed. */
  function CalculateFederalTax(req: TaxCalculationRequest): (r: Result<TaxCalculationResponse, string>)
    ensures r.Err? <==> ParseFilingStatus(req.filingStatus).Err?
    ensures r.Err? ==> r.error == "Invalid filing status: " + req.filingStatus
    ensures r.Ok? ==> r.value == Respond(req.grossIncome, req.deductions, req.credits, req.state,
      ParseFilingStatus(req.filingStatus).value, req.taxYear.UnwrapOr(DefaultTaxYear))
  {
    var status :- ParseFilingStatus(req.filingStatus).MapErr((e: TaxError) => e.Message());
    Ok(Respond(req.grossIncome, req.deductions, req.credits, req.state, status, req.taxYear.UnwrapOr(DefaultTaxYear)))
  }

  /** The standalone `calculate_state_tax` command: an unsupported state is an error here. */
  function CalculateStateTaxCommand(taxableIncome: Money, state: string, taxYear: Option<int>): (r: Result<Money, string>)
    ensures r.Ok? <==> CalculateStateTax(taxableIncome, state, taxYear.UnwrapOr(DefaultTaxYear)).Ok?
    ensures r.Ok? ==> r.value == CalculateStateTax(taxableIncome, state, taxYear.UnwrapOr(DefaultTaxYear)).value
    ensures r.Err? ==> r.error == "Unsupported state: " + state
  {
    CalculateStateTax(taxableIncome, state, taxYear.UnwrapOr(DefaultTaxYear)).MapErr((e: TaxError) => e.Message())
  }

  /** `get_tax_brackets`: the table of the parsed status. */
  function GetTaxBrackets(filingStatus: string, taxYear: Option<int>): (r: Result<seq<TaxBracket>, string>)
    ensures r.Err? <==> ParseFilingStatus(filingStatus).Err?
    ensures r.Err? ==> r.error == "Invalid filing status: " + filingStatus
    ensures r.Ok? ==> ValidTable(r.value) && |r.value| == 7
    ensures r.Ok? ==> r.value == Brackets(ParseFilingStatus(filingStatus).value, taxYear.UnwrapOr(DefaultTaxYear))
  {
    var status :- ParseFilingStatus(filingStatus).MapErr((e: TaxError) => e.Message());
    Ok(Brackets(status, taxYear.UnwrapOr(DefaultTaxYear)))
  }

  /**
   * `estimate_quarterly_tax`: the 2024 federal tax on income less the
   * standard deduction, less withholding, split into four equal payments.
   */
  function EstimateQuarterlyTax(annualIncome: Money, filingStatus: string, withholding: Option<Money>): (r: Result<QuarterlyEstimate, string>)
    ensures r.Err? <==> ParseFilingStatus(filingStatus).Err?
    ensures r.Err? ==> r.error == "Invalid filing status: " + filingStatus
    ensures r.Ok? ==>
      var status := ParseFilingStatus(filingStatus).value;
      && r.value.annualTax == CalculateTax(TaxableIncome(annualIncome, StandardDeduction(status, 2024)), status, 2024).totalTax
      && r.value.withholding == withholding.UnwrapOr(0.0)
      && r.value.remainingTax >= 0.0
      && r.value.remainingTax >= r.value.annualTax - r.value.withholding
      && (r.value.remainingTax == r.value.annualTax - r.value.withholding || r.value.remainingTax == 0.0)
      && 4.0 * r.value.quarterlyPayment == r.value.remainingTax
      && r.value.dueDates == QuarterlyDueDates
  {
    var status :- ParseFilingStatus(filingStatus).MapErr((e: TaxError) => e.Message());
    var standard := StandardDeduction(status, 2024);
    var taxable := TaxableIncome(annualIncome, standard);
    var annualTax := CalculateTax(taxable, status, 2024).totalTax;
    var withheld := withholding.UnwrapOr(0.0);
    var remaining := Max(annualTax - withheld, 0.0);
    Ok(QuarterlyEstimate(annualTax, withheld, remaining, remaining / 4.0, QuarterlyDueDates))
  }

  // ---------------------------------------------------------------------
  // Properties of the pipeline
  // ---------------------------------------------------------------------

  /** Itemized deductions at or below the standard deduction change nothing. */
  lemma SmallItemizedDeductionsIgnored(req: TaxCalculationRequest, d: Money)
    requires ParseFilingStatus(req.filingStatus).Ok?
    requires d <= StandardDeduction(ParseFilingStatus(req.filingStatus).value, req.taxYear.UnwrapOr(DefaultTaxYear))
    ensures CalculateFederalTax(req.(deductions := Some(d))) == CalculateFederalTax(req.(deductions := None))
  {
    var status := ParseFilingStatus(req.filingStatus).value;
    var year := req.taxYear.UnwrapOr(DefaultTaxYear);
    RespondDeductionsOnlyThroughTotal(req.grossIncome, Some(d), None, req.credits, req.state, status, year);
  }

  /** Two deduction claims with the same total give the same response. */
  lemma RespondDeductionsOnlyThroughTotal(
    g: Money, d1: Option<Money>, d2: Option<Money>, c: Option<Money>, s: Option<string>,
    status: FilingStatus, year: int)
    requires TotalDeductions(d1, StandardDeduction(status, year)) == TotalDeductions(d2, StandardDeduction(status, year))
    ensures Respond(g, d1, c, s, status, year) == Respond(g, d2, c, s, status, year)
  {
    var r1 := Respond(g, d1, c, s, status, year);
    var r2 := Respond(g, d2, c, s, status, year);
    assert r1.taxableIncome == r2.taxableIncome;
    assert r1.taxAfterCredits == r2.taxAfterCredits;
  }

  /** Credits change neither the federal tax before credits, nor the state tax, nor the breakdown. */
  lemma CreditsOnlyReduceFederalTax(req: TaxCalculationRequest, c1: Option<Money>, c2: Option<Money>)
    requires ParseFilingStatus(req.filingStatus).Ok?
    ensures var r1 := CalculateFederalTax(req.(credits := c1)).value;
      var r2 := CalculateFederalTax(req.(credits := c2)).value;
      && r1.federalTax == r2.federalTax
      && r1.stateTax == r2.stateTax
      && r1.taxableIncome == r2.taxableIncome
      && r1.breakdown == r2.breakdown
  {
  }

  /** Non-negative credits never raise the tax, and never take it below zero. */
  lemma CreditsClamp(req: TaxCalculationRequest)
    requires ParseFilingStatus(req.filingStatus).Ok?
    requires req.credits.UnwrapOr(0.0) >= 0.0
    ensures var r := CalculateFederalTax(req).value;
      0.0 <= r.taxAfterCredits <= r.federalTax
  {
    var r := CalculateFederalTax(req).value;
    var status := ParseFilingStatus(req.filingStatus).value;
    var year := req.taxYear.UnwrapOr(DefaultTaxYear);
    CalculateTaxMonotone(0.0, r.taxableIncome, status, year);
  }

  /** Two states that add the same amount give the same response. */
  lemma RespondStateOnlyThroughAddOn(
    g: Money, d: Option<Money>, c: Option<Money>, s1: Option<string>, s2: Option<string>,
    status: FilingStatus, year: int)
    requires var taxable := TaxableIncome(g, TotalDeductions(d, StandardDeduction(status, year)));
      StateAddOn(taxable, s1, year) == StateAddOn(taxable, s2, year)
    ensures Respond(g, d, c, s1, status, year) == Respond(g, d, c, s2, status, year)
  {
    var r1 := Respond(g, d, c, s1, status, year);
    var r2 := Respond(g, d, c, s2, status, year);
    assert r1.taxableIncome == r2.taxableIncome;
    assert r1.stateTax == r2.stateTax;
    assert r1.taxAfterCredits == r2.taxAfterCredits;
  }

  /**
   * An unsupported state adds nothing to the federal command, while the
   * standalone state command reports it.
   */
  lemma UnsupportedStateIsZero(req: TaxCalculationRequest, s: string)
    requires ParseFilingStatus(req.filingStatus).Ok?
    requires !Supported(Text.Upper(s))
    ensures CalculateFederalTax(req.(state := Some(s))).value.stateTax == 0.0
    ensures CalculateFederalTax(req.(state := Some(s))) == CalculateFederalTax(req.(state := None))
    ensures forall x: Money :: CalculateStateTaxCommand(x, s, req.taxYear) == Err("Unsupported state: " + s)
  {
    var status := ParseFilingStatus(req.filingStatus).value;
    var year := req.taxYear.UnwrapOr(DefaultTaxYear);
    var taxable := TaxableIncome(req.grossIncome, TotalDeductions(req.deductions, StandardDeduction(status, year)));
    assert CalculateStateTax(taxable, s, year).Err?;
    RespondStateOnlyThroughAddOn(req.grossIncome, req.deductions, req.credits, Some(s), None, status, year);
  }

  /** Without a year the commands use 2024. */
  lemma TaxYearDefaults(req: TaxCalculationRequest)
    ensures CalculateFederalTax(req.(taxYear := None)) == CalculateFederalTax(req.(taxYear := Some(2024)))
  {
  }

  /** The response's total deductions never fall below the standard deduction. */
  lemma DeductionsAtLeastStandard(req: TaxCalculationRequest)
    requires ParseFilingStatus(req.filingStatus).Ok?
    ensures var r := CalculateFederalTax(req).value;
      r.totalDeductions >= r.standardDeduction && r.standardDeduction > 0.0 && r.taxableIncome >= 0.0
  {
  }

  /** Without credits the tax after credits is the federal tax, and the rates are the engine's. */
  lemma NoCreditsKeepsEngineRates(req: TaxCalculationRequest)
    requires ParseFilingStatus(req.filingStatus).Ok?
    requires req.credits.UnwrapOr(0.0) == 0.0
    ensures var r := CalculateFederalTax(req).value;
      var c := CalculateTax(r.taxableIncome, ParseFilingStatus(req.filingStatus).value, req.taxYear.UnwrapOr(DefaultTaxYear));
      && r.taxAfterCredits == r.federalTax
      && r.effectiveRate == c.effectiveRate
      && r.marginalRate == c.marginalRate
  {
    var r := CalculateFederalTax(req).value;
    CalculateTaxMonotone(0.0, r.taxableIncome, ParseFilingStatus(req.filingStatus).value, req.taxYear.UnwrapOr(DefaultTaxYear));
  }

  /** Every table starts at 10%. */
  lemma FirstRateIsTenPercent(status: FilingStatus, year: int)
    ensures Brackets(status, year)[0].rate == 0.1
  {
  }

  /** With no credits, the effective rate lies between the first and the marginal rate. */
  lemma FederalEffectiveRateBounds(req: TaxCalculationRequest)
    requires ParseFilingStatus(req.filingStatus).Ok?
    requires req.credits.UnwrapOr(0.0) == 0.0
    requires CalculateFederalTax(req).value.taxableIncome > 0.0
    ensures var r := CalculateFederalTax(req).value;
      0.1 <= r.effectiveRate <= r.marginalRate
  {
    var status := ParseFilingStatus(req.filingStatus).value;
    var year := req.taxYear.UnwrapOr(DefaultTaxYear);
    NoCreditsKeepsEngineRates(req);
    EffectiveRateBounds(CalculateFederalTax(req).value.taxableIncome, status, year);
    FirstRateIsTenPercent(status, year);
  }

  /** More gross income never lowers the federal tax, with the other fields held fixed. */
  lemma FederalTaxMonotoneInIncome(req: TaxCalculationRequest, g1: Money, g2: Money)
    requires ParseFilingStatus(req.filingStatus).Ok?
    requires g1 <= g2
    ensures CalculateFederalTax(req.(grossIncome := g1)).value.federalTax
         <= CalculateFederalTax(req.(grossIncome := g2)).value.federalTax
    ensures CalculateFederalTax(req.(grossIncome := g1)).value.taxAfterCredits
         <= CalculateFederalTax(req.(grossIncome := g2)).value.taxAfterCredits
  {
    var status := ParseFilingStatus(req.filingStatus).value;
    var year := req.taxYear.UnwrapOr(DefaultTaxYear);
    var r1 := CalculateFederalTax(req.(grossIncome := g1)).value;
    var r2 := CalculateFederalTax(req.(grossIncome := g2)).value;
    assert r1.totalDeductions == r2.totalDeductions;
    CalculateTaxMonotone(r1.taxableIncome, r2.taxableIncome, status, year);
  }

  /** A state tax, when charged, never exceeds 10% of taxable income. */
  lemma StateAddOnBounded(req: TaxCalculationRequest)
    requires ParseFilingStatus(req.filingStatus).Ok?
    ensures var r := CalculateFederalTax(req).value;
      0.0 <= r.stateTax <= r.taxableIncome * 0.1
  {
    var r := CalculateFederalTax(req).value;
    var year := req.taxYear.UnwrapOr(DefaultTaxYear);
    if req.state.Some? && CalculateStateTax(r.taxableIncome, req.state.value, year).Ok? {
      StateTaxBounds(r.taxableIncome, req.state.value, year);
    }
  }

  /** The quarterly estimate's annual tax is the federal command's tax for the same income in 2024. */
  lemma QuarterlyMatchesFederal(annualIncome: Money, filingStatus: string, withholding: Option<Money>)
    requires ParseFilingStatus(filingStatus).Ok?
    ensures var req := TaxCalculationRequest(annualIncome, filingStatus, None, None, None, Some(2024));
      EstimateQuarterlyTax(annualIncome, filingStatus, withholding).value.annualTax
        == CalculateFederalTax(req).value.federalTax
  {
  }

  /** Withholding that covers the annual tax leaves nothing to pay each quarter. */
  lemma WithholdingCoversTax(annualIncome: Money, filingStatus: string, w: Money)
    requires EstimateQuarterlyTax(annualIncome, filingStatus, Some(w)).Ok?
    requires w >= EstimateQuarterlyTax(annualIncome, filingStatus, Some(w)).value.annualTax
    ensures EstimateQuarterlyTax(annualIncome, filingStatus, Some(w)).value.quarterlyPayment == 0.0
  {
  }

  /** Four equal payments settle exactly the remaining tax. */
  lemma QuarterlyPaymentsSettle(annualIncome: Money, filingStatus: string, withholding: Option<Money>)
    requires EstimateQuarterlyTax(annualIncome, filingStatus, withholding).Ok?
    ensures var e := EstimateQuarterlyTax(annualIncome, filingStatus, withholding).value;
      && |e.dueDates| == 4
      && e.quarterlyPayment + e.quarterlyPayment + e.quarterlyPayment + e.quarterlyPayment == e.remainingTax
      && e.withholding + 4.0 * e.quarterlyPayment >= e.annualTax
  {
  }

  /** Without itemized deductions, credits or a state, the total is the federal tax. */
  lemma PlainRequest(req: TaxCalculationRequest)
    requires ParseFilingStatus(req.filingStatus).Ok?
    requires req.deductions.None? && req.credits.None? && req.state.None?
    ensures var r := CalculateFederalTax(req).value;
      && r.totalDeductions == r.standardDeduction
      && r.taxableIncome == Max(req.grossIncome - r.standardDeduction, 0.0)
      && r.totalTax == r.federalTax
  {
    var r := CalculateFederalTax(req).value;
    var status := ParseFilingStatus(req.filingStatus).value;
    var year := req.taxYear.UnwrapOr(DefaultTaxYear);
    CalculateTaxMonotone(0.0, r.taxableIncome, status, year);
  }

  /** A single filer with 50,000 of income and no extras is taxed on 35,400. */
  lemma SingleFilerRequestIncome(req: TaxCalculationRequest)
    requires ParseFilingStatus(req.filingStatus) == Ok(Single)
    requires req.grossIncome == 50_000.0 && req.taxYear.UnwrapOr(DefaultTaxYear) == 2024
    requires req.deductions.None? && req.credits.None? && req.state.None?
    ensures var r := CalculateFederalTax(req).value;
      && r.standardDeduction == 14_600.0
      && r.taxableIncome == 35_400.0
      && r.totalTax == r.federalTax
  {
    PlainRequest(req);
  }

  /** Worked example: a single filer with 50,000 of income and no extras owes 4,016. */
  lemma SingleFilerRequestExample(req: TaxCalculationRequest)
    requires ParseFilingStatus(req.filingStatus) == Ok(Single)
    requires req.grossIncome == 50_000.0 && req.taxYear.UnwrapOr(DefaultTaxYear) == 2024
    requires req.deductions.None? && req.credits.None? && req.state.None?
    ensures CalculateFederalTax(req).value.federalTax == 4_016.0
    ensures CalculateFederalTax(req).value.totalTax == 4_016.0
  {
    SingleFilerRequestIncome(req);
    SingleFilerExample(CalculateFederalTax(req).value.taxableIncome);
  }

  /** The spelling "single" selects the single filer's table. */
  lemma SingleSpelling()
    ensures ParseFilingStatus("single") == Ok(Single)
  {
    assert Text.Lower("single") == "single";
    ParseFilingStatusAccepts(Single, "single");
  }
}
