/** Progressive income-tax brackets (NTA Tax Answer No. 2260), resident-tax rate and basic deduction. */
module TaxRates {
  import opened Wrappers
  import opened Common
  import opened DomainTypes

  const IncomeTaxRates: seq<TaxRateEntry> := [
    TaxRateEntry(0, Finite(1_949_000), 5, 0),
    TaxRateEntry(1_950_000, Finite(3_299_000), 10, 97_500),
    TaxRateEntry(3_300_000, Finite(6_949_000), 20, 427_500),
    TaxRateEntry(6_950_000, Finite(8_999_000), 23, 636_000),
    TaxRateEntry(9_000_000, Finite(17_999_000), 33, 1_536_000),
    TaxRateEntry(18_000_000, Finite(39_999_000), 40, 2_796_000),
    TaxRateEntry(40_000_000, PositiveInfinity, 45, 4_796_000)
  ]

  /** The income-proportional resident tax is a flat 10%. */
  const ResidentTaxRatePercent: int := 10

  const BasicDeduction: int := 480_000

  /** The closed interval `[min, max]` of a bracket contains `x`. */
  predicate InTaxBracket(e: TaxRateEntry, x: int) {
    e.min <= x && AtMost(x, e.max)
  }

  /** `x` lies strictly between the `max` of bracket `i` and the `min` of bracket `i + 1`. */
  predicate GapAfter(i: int, x: int) {
    0 <= i < |IncomeTaxRates| - 1 &&
    IncomeTaxRates[i].max.Finite? && IncomeTaxRates[i].max.n < x < IncomeTaxRates[i + 1].min
  }

  /** `x` lies strictly between the `max` of one bracket and the `min` of the next. */
  predicate InBracketGap(x: int) {
    exists i :: 0 <= i < |IncomeTaxRates| - 1 && GapAfter(i, x)
  }

  /**
   * The brackets ascend strictly, start at 0 with no deduction, end open, and
   * their rates are 5, 10, 20, 23, 33, 40 and 45 per cent; each gap between two
   * brackets is 999 yen wide, so every multiple of 1,000 is covered.
   */
  lemma TaxRateTableShape()
    ensures |IncomeTaxRates| == 7
    ensures IncomeTaxRates[0].min == 0 && IncomeTaxRates[0].deduction == 0
    ensures IncomeTaxRates[6].max == PositiveInfinity
    ensures forall i, j :: 0 <= i && j == i + 1 < |IncomeTaxRates| ==>
              IncomeTaxRates[i].max.Finite? &&
              IncomeTaxRates[i].min <= IncomeTaxRates[i].max.n < IncomeTaxRates[j].min &&
              IncomeTaxRates[j].min == IncomeTaxRates[i].max.n + 1_000 &&
              IncomeTaxRates[i].ratePercent < IncomeTaxRates[j].ratePercent
    ensures seq(7, i requires 0 <= i < 7 => IncomeTaxRates[i].ratePercent) == [5, 10, 20, 23, 33, 40, 45]
    ensures ResidentTaxRatePercent == 10 && BasicDeduction == 480_000
  {
  }

  /**
   * A non-negative income lies in some bracket exactly when it is not in a gap,
   * and never in two brackets.
   */
  lemma TaxBracketCoverage(x: int)
    requires x >= 0
    ensures (exists i :: 0 <= i < |IncomeTaxRates| && InTaxBracket(IncomeTaxRates[i], x)) <==> !InBracketGap(x)
    ensures forall i, j ::
              (0 <= i < |IncomeTaxRates| && 0 <= j < |IncomeTaxRates| &&
               InTaxBracket(IncomeTaxRates[i], x) && InTaxBracket(IncomeTaxRates[j], x)) ==> i == j
  {
    var t := IncomeTaxRates;
    if x <= 1_949_000 { assert InTaxBracket(t[0], x); }
    else if x < 1_950_000 { assert GapAfter(0, x); }
    else if x <= 3_299_000 { assert InTaxBracket(t[1], x); }
    else if x < 3_300_000 { assert GapAfter(1, x); }
    else if x <= 6_949_000 { assert InTaxBracket(t[2], x); }
    else if x < 6_950_000 { assert GapAfter(2, x); }
    else if x <= 8_999_000 { assert InTaxBracket(t[3], x); }
    else if x < 9_000_000 { assert GapAfter(3, x); }
    else if x <= 17_999_000 { assert InTaxBracket(t[4], x); }
    else if x < 18_000_000 { assert GapAfter(4, x); }
    else if x <= 39_999_000 { assert InTaxBracket(t[5], x); }
    else if x < 40_000_000 { assert GapAfter(5, x); }
    else { assert InTaxBracket(t[6], x); }
  }

  /** Multiples of 1,000 never fall in a gap. */
  lemma ThousandsAreCovered(x: int)
    requires x >= 0 && x % 1_000 == 0
    ensures !InBracketGap(x)
  {
  }

  /** A gap is really there: 1,949,500 yen lies in no bracket. */
  lemma GapExample()
    ensures InBracketGap(1_949_500)
    ensures forall i :: 0 <= i < |IncomeTaxRates| ==> !InTaxBracket(IncomeTaxRates[i], 1_949_500)
  {
    assert GapAfter(0, 1_949_500);
  }

  /** The share of `x` that falls in `[lo, hi)`. */
  function Slice(x: int, lo: int, hi: int): int {
    Max(0, Min(x, hi) - lo)
  }

  /**
   * The statutory progressive tax, in hundredths of a yen: each rate applies only
   * to the part of the income inside its band (an independent statement of the
   * quick-calculation deductions of the bracket table).
   */
  function ProgressiveTaxHundredths(x: int): int {
    5 * Slice(x, 0, 1_950_000)
    + 10 * Slice(x, 1_950_000, 3_300_000)
    + 20 * Slice(x, 3_300_000, 6_950_000)
    + 23 * Slice(x, 6_950_000, 9_000_000)
    + 33 * Slice(x, 9_000_000, 18_000_000)
    + 40 * Slice(x, 18_000_000, 40_000_000)
    + 45 * Max(0, x - 40_000_000)
  }

  /** More income never means less progressive tax. */
  lemma ProgressiveTaxMonotone(x: int, y: int)
    requires x <= y
    ensures ProgressiveTaxHundredths(x) <= ProgressiveTaxHundredths(y)
  {
  }
}
