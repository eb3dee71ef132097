/**
 * Self-employment tax: both halves of Social Security and Medicare on
 * 92.35% of net earnings, plus the additional Medicare tax; half of it is
 * deductible.
 */
module SelfEmployment {
  import opened TaxEngine
  import opened Fica

  /** The combined rate, 12.4% + 2.9%, which the computation itself spells out in parts. */
  const SeTaxRate: Rate := 0.153
  /** The share of net earnings subject to the tax. */
  const SeDeductionRate: Rate := 0.9235
  const SeSocialSecurityRate: Rate := 0.124
  const SeMedicareRate: Rate := 0.029

  datatype SeResult = SeResult(socialSecurityTax: Money, medicareTax: Money, totalSeTax: Money, deductibleAmount: Money)

  /** `self_employment::calculate_se_tax`. */
  function CalculateSeTax(netIncome: Money): (r: SeResult)
    ensures r.totalSeTax == r.socialSecurityTax + r.medicareTax
    ensures 2.0 * r.deductibleAmount == r.totalSeTax
    ensures r.socialSecurityTax == Min(netIncome * SeDeductionRate, SocialSecurityWageBase) * SeSocialSecurityRate
    ensures r.medicareTax == netIncome * SeDeductionRate * SeMedicareRate + AdditionalMedicare(netIncome * SeDeductionRate)
  {
    var taxable := netIncome * SeDeductionRate;
    var ssTax := Min(taxable, SocialSecurityWageBase) * SeSocialSecurityRate;
    var medicareTax := taxable * SeMedicareRate;
    var additional := AdditionalMedicare(taxable);
    var total := ssTax + medicareTax + additional;
    SeResult(ssTax, medicareTax + additional, total, total / 2.0)
  }

  /** The two parts add up to the advertised 15.3%. */
  lemma SeRateIsSumOfParts()
    ensures SeSocialSecurityRate + SeMedicareRate == SeTaxRate
  {
  }

  /** Up to the wage base, the tax is 15.3% of 92.35% of net earnings. */
  lemma SeFlatBelowWageBase(netIncome: Money)
    requires netIncome * SeDeductionRate <= SocialSecurityWageBase
    ensures CalculateSeTax(netIncome).totalSeTax == netIncome * SeDeductionRate * SeTaxRate
  {
  }

  /** The self-employed pay both halves: twice the employee FICA on the same taxable wages, below the wage base. */
  lemma SeIsTwiceFica(netIncome: Money)
    requires netIncome * SeDeductionRate <= SocialSecurityWageBase
    ensures CalculateSeTax(netIncome).totalSeTax == 2.0 * CalculateFica(netIncome * SeDeductionRate).totalFica
  {
  }

  /** More net earnings never mean less self-employment tax. */
  lemma SeMonotone(n1: Money, n2: Money)
    requires n1 <= n2
    ensures CalculateSeTax(n1).totalSeTax <= CalculateSeTax(n2).totalSeTax
  {
    assert n1 * SeDeductionRate <= n2 * SeDeductionRate;
  }
}
