/** Salary-income deduction bands (NTA Tax Answer No. 1410) and the social-insurance estimate rate. */
module SalaryDeduction {
  import opened Wrappers
  import opened DomainTypes

  const SalaryDeductionTable: seq<SalaryDeductionEntry> := [
    SalaryDeductionEntry(0, Finite(1_625_000), Some(550_000), None, None),
    SalaryDeductionEntry(1_625_001, Finite(1_800_000), None, Some(40), Some(-100_000)),
    SalaryDeductionEntry(1_800_001, Finite(3_600_000), None, Some(30), Some(80_000)),
    SalaryDeductionEntry(3_600_001, Finite(6_600_000), None, Some(20), Some(440_000)),
    SalaryDeductionEntry(6_600_001, Finite(8_500_000), None, Some(10), Some(1_100_000)),
    SalaryDeductionEntry(8_500_001, PositiveInfinity, Some(1_950_000), None, None)
  ]

  /** Social insurance is estimated as 15% of the salary. */
  const SocialInsuranceRatePercent: int := 15

  /** The closed interval `[min, max]` of a band contains `x`. */
  predicate InSalaryBand(e: SalaryDeductionEntry, x: int) {
    e.min <= x && AtMost(x, e.max)
  }

  /** Exactly one of a fixed deduction or a (rate, adjustment) pair. */
  predicate HasOneMethod(e: SalaryDeductionEntry) {
    (e.deduction.Some? && e.ratePercent.None? && e.adjustment.None?) ||
    (e.deduction.None? && e.ratePercent.Some? && e.adjustment.Some?)
  }

  /**
   * The table starts at 0, ends open, its bands follow each other with no gap over
   * the integers, and every band carries exactly one way to compute the deduction.
   */
  lemma SalaryTableShape()
    ensures |SalaryDeductionTable| == 6
    ensures SalaryDeductionTable[0].min == 0
    ensures SalaryDeductionTable[5].max == PositiveInfinity
    ensures forall i, j :: 0 <= i && j == i + 1 < |SalaryDeductionTable| ==>
              SalaryDeductionTable[i].max.Finite? &&
              SalaryDeductionTable[j].min == SalaryDeductionTable[i].max.n + 1
    ensures forall i :: 0 <= i < |SalaryDeductionTable| ==> HasOneMethod(SalaryDeductionTable[i])
    ensures SocialInsuranceRatePercent == 15
  {
  }

  /** Every non-negative salary lies in exactly one band. */
  lemma SalaryBandsPartition(x: int)
    requires x >= 0
    ensures exists i :: 0 <= i < |SalaryDeductionTable| && InSalaryBand(SalaryDeductionTable[i], x)
    ensures forall i, j ::
              (0 <= i < |SalaryDeductionTable| && 0 <= j < |SalaryDeductionTable| &&
               InSalaryBand(SalaryDeductionTable[i], x) && InSalaryBand(SalaryDeductionTable[j], x)) ==> i == j
  {
    var t := SalaryDeductionTable;
    if x <= 1_625_000 { assert InSalaryBand(t[0], x); }
    else if x <= 1_800_000 { assert InSalaryBand(t[1], x); }
    else if x <= 3_600_000 { assert InSalaryBand(t[2], x); }
    else if x <= 6_600_000 { assert InSalaryBand(t[3], x); }
    else if x <= 8_500_000 { assert InSalaryBand(t[4], x); }
    else { assert InSalaryBand(t[5], x); }
  }

  /**
   * The statutory salary-income deduction written out band by band, rounded down
   * (an independent statement of the table).
   */
  function StatutorySalaryDeduction(x: int): int {
    if x <= 1_625_000 then 550_000
    else if x <= 1_800_000 then x * 4 / 10 - 100_000
    else if x <= 3_600_000 then x * 3 / 10 + 80_000
    else if x <= 6_600_000 then x * 2 / 10 + 440_000
    else if x <= 8_500_000 then x / 10 + 1_100_000
    else 1_950_000
  }

  /** The deduction never falls as the salary grows, and rises by at most the salary's growth. */
  lemma StatutorySalaryDeductionMonotone(x: int, y: int)
    requires 0 <= x <= y
    ensures StatutorySalaryDeduction(x) <= StatutorySalaryDeduction(y)
    ensures StatutorySalaryDeduction(y) - StatutorySalaryDeduction(x) <= y - x
  {
  }

  /** At every band edge the rounded deduction is the same on both sides. */
  lemma StatutorySalaryDeductionContinuous()
    ensures StatutorySalaryDeduction(1_625_000) == StatutorySalaryDeduction(1_625_001) == 550_000
    ensures StatutorySalaryDeduction(1_800_000) == StatutorySalaryDeduction(1_800_001) == 620_000
    ensures StatutorySalaryDeduction(3_600_000) == StatutorySalaryDeduction(3_600_001) == 1_160_000
    ensures StatutorySalaryDeduction(6_600_000) == StatutorySalaryDeduction(6_600_001) == 1_760_000
    ensures StatutorySalaryDeduction(8_500_000) == StatutorySalaryDeduction(8_500_001) == 1_950_000
  {
  }
}
