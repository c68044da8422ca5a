/**
 * Caps and thresholds of the income deductions: earthquake insurance (NTA Tax Answer
 * No. 1145), medical expenses (No. 1120), donations (No. 1150) and life insurance (No. 1140).
 */
module DeductionLimits {
  import opened DomainTypes

  const EarthquakeInsuranceMax: int := 50_000

  const MedicalExpenseThreshold: int := 100_000
  const MedicalExpenseMax: int := 2_000_000
  const MedicalExpenseIncomeRatePercent: int := 5

  const DonationSelfBurden: int := 2_000
  const DonationIncomeLimitRatePercent: int := 40

  /** Tier boundaries for contracts concluded from 1 January 2012. */
  const LifeInsuranceNewSystem: seq<LifeInsuranceDeductionEntry> := [
    LifeInsuranceDeductionEntry(Finite(20_000)),
    LifeInsuranceDeductionEntry(Finite(40_000)),
    LifeInsuranceDeductionEntry(Finite(80_000)),
    LifeInsuranceDeductionEntry(PositiveInfinity)
  ]

  /** Tier boundaries for contracts concluded up to 31 December 2011. */
  const LifeInsuranceOldSystem: seq<LifeInsuranceDeductionEntry> := [
    LifeInsuranceDeductionEntry(Finite(25_000)),
    LifeInsuranceDeductionEntry(Finite(50_000)),
    LifeInsuranceDeductionEntry(Finite(100_000)),
    LifeInsuranceDeductionEntry(PositiveInfinity)
  ]

  const LifeInsuranceMaxNew: int := 120_000
  const LifeInsuranceMaxOld: int := 100_000

  /** Four tiers, finite boundaries strictly ascending, the last one open. */
  predicate IsTierTable(t: seq<LifeInsuranceDeductionEntry>) {
    |t| == 4 && t[3].paymentMax == PositiveInfinity &&
    t[0].paymentMax.Finite? && t[1].paymentMax.Finite? && t[2].paymentMax.Finite? &&
    0 < t[0].paymentMax.n < t[1].paymentMax.n < t[2].paymentMax.n
  }

  /** The constants of the deduction rules, and the shape of both life-insurance tables. */
  lemma DeductionLimitsShape()
    ensures IsTierTable(LifeInsuranceNewSystem) && IsTierTable(LifeInsuranceOldSystem)
    ensures LifeInsuranceNewSystem != LifeInsuranceOldSystem
    ensures LifeInsuranceNewSystem[0].paymentMax.n == 20_000 && LifeInsuranceNewSystem[1].paymentMax.n == 40_000
    ensures LifeInsuranceNewSystem[2].paymentMax.n == 80_000
    ensures LifeInsuranceOldSystem[0].paymentMax.n == 25_000 && LifeInsuranceOldSystem[1].paymentMax.n == 50_000
    ensures LifeInsuranceOldSystem[2].paymentMax.n == 100_000
    ensures LifeInsuranceMaxNew == 120_000 && LifeInsuranceMaxOld == 100_000
    ensures EarthquakeInsuranceMax == 50_000
    ensures MedicalExpenseThreshold == 100_000 && MedicalExpenseMax == 2_000_000 && MedicalExpenseIncomeRatePercent == 5
    ensures DonationSelfBurden == 2_000 && DonationIncomeLimitRatePercent == 40
  {
  }
}
