/** Housing-loan borrowing limits by residence year and housing type (NTA Tax Answer No. 1213). */
module HousingLoanTable {
  import opened Wrappers
  import opened DomainTypes

  /** The borrowing limits of one residence year, one for each housing type. */
  datatype YearLimits = YearLimits(
    newCertified: HousingLoanLimit,
    newZeh: HousingLoanLimit,
    newEnergySaving: HousingLoanLimit,
    newOther: HousingLoanLimit,
    used: HousingLoanLimit)

  /** The limit a year's record gives a housing type. */
  function LimitFor(limits: YearLimits, housingType: HousingType): HousingLoanLimit {
    match housingType
    case NewCertified => limits.newCertified
    case NewZeh => limits.newZeh
    case NewEnergySaving => limits.newEnergySaving
    case NewOther => limits.newOther
    case Used => limits.used
  }

  /** The table, keyed by residence year; `None` for a year it does not list. */
  function HousingLoanLimits(residenceYear: int): (r: Option<YearLimits>)
    ensures r.Some? <==> 2022 <= residenceYear <= 2025
    ensures r.Some? ==> forall h :: LimitFor(r.value, h).limit >= 0
  {
    if residenceYear == 2022 then
      Some(YearLimits(HousingLoanLimit(50_000_000), HousingLoanLimit(45_000_000), HousingLoanLimit(40_000_000),
                      HousingLoanLimit(30_000_000), HousingLoanLimit(20_000_000)))
    else if residenceYear == 2023 then
      Some(YearLimits(HousingLoanLimit(50_000_000), HousingLoanLimit(45_000_000), HousingLoanLimit(40_000_000),
                      HousingLoanLimit(0), HousingLoanLimit(30_000_000)))
    else if residenceYear == 2024 || residenceYear == 2025 then
      Some(YearLimits(HousingLoanLimit(45_000_000), HousingLoanLimit(35_000_000), HousingLoanLimit(30_000_000),
                      HousingLoanLimit(0), HousingLoanLimit(30_000_000)))
    else None
  }

  /** The credit rate of the current regime, 0.7%, in per mille. */
  const HousingLoanRatePerMille: int := 7

  /**
   * The table holds exactly the years 2022 to 2025; "new-other" is eligible only
   * in 2022; within a year certified housing has the highest limit, then ZEH,
   * then energy-saving; no limit is negative.
   */
  lemma HousingLoanLimitsShape()
    ensures forall y :: HousingLoanLimits(y).Some? <==> 2022 <= y <= 2025
    ensures LimitFor(HousingLoanLimits(2022).value, NewOther).limit == 30_000_000
    ensures forall y :: 2023 <= y <= 2025 ==> LimitFor(HousingLoanLimits(y).value, NewOther).limit == 0
    ensures forall y :: HousingLoanLimits(y).Some? ==>
              var l := HousingLoanLimits(y).value;
              l.newCertified.limit >= l.newZeh.limit >= l.newEnergySaving.limit
    ensures forall y, h :: HousingLoanLimits(y).Some? ==> LimitFor(HousingLoanLimits(y).value, h).limit >= 0
    ensures HousingLoanRatePerMille == 7
  {
  }
}
