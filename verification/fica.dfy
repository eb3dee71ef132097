/**
 * Employee FICA for 2024: Social Security on wages up to the wage base,
 * Medicare on all wages, and the additional Medicare tax above 200,000.
 */
module Fica {
  import opened TaxEngine

  const SocialSecurityRate: Rate := 0.062
  const MedicareRate: Rate := 0.0145
  const SocialSecurityWageBase: Money := 168_600.0
  const MedicareAdditionalThreshold: Money := 200_000.0
  const MedicareAdditionalRate: Rate := 0.009

  datatype FicaResult = FicaResult(socialSecurityTax: Money, medicareTax: Money, totalFica: Money)

  /** The additional Medicare tax: 0.9% of the part of `amount` above 200,000. */
  function AdditionalMedicare(amount: Money): (r: Money)
    ensures amount <= MedicareAdditionalThreshold ==> r == 0.0
    ensures amount > MedicareAdditionalThreshold ==> r == (amount - MedicareAdditionalThreshold) * MedicareAdditionalRate
  {
    if amount > MedicareAdditionalThreshold then
      (amount - MedicareAdditionalThreshold) * MedicareAdditionalRate
    else
      0.0
  }

  /** `fica::calculate_fica`. */
  function CalculateFica(grossWages: Money): (r: FicaResult)
    ensures r.totalFica == r.socialSecurityTax + r.medicareTax
    ensures r.socialSecurityTax == Min(grossWages, SocialSecurityWageBase) * SocialSecurityRate
    ensures r.medicareTax == grossWages * MedicareRate + AdditionalMedicare(grossWages)
  {
    var ssWages := Min(grossWages, SocialSecurityWageBase);
    var socialSecurityTax := ssWages * SocialSecurityRate;
    var medicareTax := grossWages * MedicareRate + AdditionalMedicare(grossWages);
    FicaResult(socialSecurityTax, medicareTax, socialSecurityTax + medicareTax)
  }

  /** Up to the wage base, FICA is 7.65% of wages. */
  lemma FicaFlatBelowWageBase(grossWages: Money)
    requires grossWages <= SocialSecurityWageBase
    ensures CalculateFica(grossWages).totalFica == grossWages * 0.0765
  {
  }

  /** From the wage base on, Social Security stays at its cap of 10,453.20. */
  lemma SocialSecurityCapped(grossWages: Money)
    requires grossWages >= SocialSecurityWageBase
    ensures CalculateFica(grossWages).socialSecurityTax == 10_453.2
  {
  }

  /** Between the wage base and the threshold only Medicare grows, at 1.45%. */
  lemma MedicareOnlyAboveBase(w1: Money, w2: Money)
    requires SocialSecurityWageBase <= w1 <= w2 <= MedicareAdditionalThreshold
    ensures CalculateFica(w2).totalFica - CalculateFica(w1).totalFica == (w2 - w1) * MedicareRate
  {
  }

  /** Above 200,000 each extra dollar costs 2.35% of Medicare. */
  lemma MedicareRateAboveThreshold(w1: Money, w2: Money)
    requires MedicareAdditionalThreshold <= w1 <= w2
    ensures CalculateFica(w2).medicareTax - CalculateFica(w1).medicareTax == (w2 - w1) * 0.0235
  {
  }

  /** More wages never mean less FICA. */
  lemma FicaMonotone(w1: Money, w2: Money)
    requires w1 <= w2
    ensures CalculateFica(w1).totalFica <= CalculateFica(w2).totalFica
  {
  }

  /** FICA on non-negative wages is non-negative and at most 8.55% of them. */
  lemma FicaBounds(grossWages: Money)
    requires grossWages >= 0.0
    ensures 0.0 <= CalculateFica(grossWages).totalFica <= grossWages * 0.0855
  {
  }

  /** Worked example: 100,000 of wages owes 7,650. */
  lemma FicaExample()
    ensures CalculateFica(100_000.0).totalFica == 7_650.0
  {
  }
}
