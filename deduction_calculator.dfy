/** The income deductions and the housing-loan tax credit. */
module DeductionCalculator {
  import opened Wrappers
  import opened Common
  import opened DomainTypes
  import opened DeductionLimits
  import opened HousingLoanTable

  /** iDeCo contributions are deducted in full. */
  function CalculateIdecoDeduction(annualPayment: int): (r: Result<int>)
    ensures r.Ok? <==> annualPayment >= 0
    ensures r.Err? ==> r.error == InvalidArgument
    ensures r.Ok? ==> r.value == annualPayment
  {
    if annualPayment < 0 then Err(InvalidArgument) else Ok(annualPayment)
  }

  /**
   * The unrounded deduction of one life-insurance category whose payment lies in
   * tier `thresholdIndex`; any index other than 0, 1 and 2 gets the flat amount.
   */
  function LifeInsuranceByThreshold(payment: int, thresholdIndex: int, isNewSystem: bool): (r: real)
    ensures thresholdIndex == 0 ==> r == payment as real
    ensures thresholdIndex !in {0, 1, 2} ==> r == (if isNewSystem then 40_000.0 else 50_000.0)
    ensures payment >= 0 ==> r >= 0.0
  {
    var p := payment as real;
    if isNewSystem then
      if thresholdIndex == 0 then p
      else if thresholdIndex == 1 then p * 0.5 + 10_000.0
      else if thresholdIndex == 2 then p * 0.25 + 20_000.0
      else 40_000.0
    else
      if thresholdIndex == 0 then p
      else if thresholdIndex == 1 then p * 0.5 + 12_500.0
      else if thresholdIndex == 2 then p * 0.25 + 25_000.0
      else 50_000.0
  }

  /** The first tier from `from` on whose boundary is at least `payment`, or the last index when there is none. */
  function TierIndexFrom(payment: int, table: seq<LifeInsuranceDeductionEntry>, from: nat): (i: int)
    requires from <= |table|
    ensures from <= i < |table| || i == |table| - 1
    ensures forall j :: from <= j < i && j < |table| ==> !AtMost(payment, table[j].paymentMax)
    ensures (from <= i < |table| && AtMost(payment, table[i].paymentMax)) ||
            (i == |table| - 1 && forall j :: from <= j < |table| ==> !AtMost(payment, table[j].paymentMax))
    decreases |table| - from
  {
    if from == |table| then |table| - 1
    else if AtMost(payment, table[from].paymentMax) then from
    else TierIndexFrom(payment, table, from + 1)
  }

  /** The first tier whose boundary is at least `payment`, or the last index when there is none. */
  function TierIndex(payment: int, table: seq<LifeInsuranceDeductionEntry>): (i: int)
    ensures 0 <= i < |table| || i == |table| - 1
    ensures forall j :: 0 <= j < i && j < |table| ==> !AtMost(payment, table[j].paymentMax)
    ensures (0 <= i < |table| && AtMost(payment, table[i].paymentMax)) ||
            (i == |table| - 1 && forall j :: 0 <= j < |table| ==> !AtMost(payment, table[j].paymentMax))
  {
    TierIndexFrom(payment, table, 0)
  }

  /**
   * The rounded-down deduction of one category; the regime is the new one exactly
   * when the table is the new-regime table.
   */
  function SingleLifeInsurance(payment: int, table: seq<LifeInsuranceDeductionEntry>): (r: Result<int>)
    ensures r.Ok? <==> payment >= 0
    ensures r.Err? ==> r.error == InvalidArgument
    ensures r.Ok? ==> r.value >= 0
  {
    if payment < 0 then Err(InvalidArgument)
    else if payment == 0 then Ok(0)
    else Ok(LifeInsuranceByThreshold(payment, TierIndex(payment, table), table == LifeInsuranceNewSystem).Floor)
  }

  /** The same computation as the source's indexed scan with early return. */
  method CalculateSingleLifeInsurance(payment: int, table: seq<LifeInsuranceDeductionEntry>) returns (r: Result<int>)
    ensures r == SingleLifeInsurance(payment, table)
  {
    if payment < 0 {
      return Err(InvalidArgument);
    }
    if payment == 0 {
      return Ok(0);
    }
    var isNewSystem := table == LifeInsuranceNewSystem;
    for i := 0 to |table|
      invariant TierIndexFrom(payment, table, i) == TierIndex(payment, table)
    {
      if AtMost(payment, table[i].paymentMax) {
        return Ok(LifeInsuranceByThreshold(payment, i, isNewSystem).Floor);
      }
    }
    return Ok(LifeInsuranceByThreshold(payment, |table| - 1, isNewSystem).Floor);
  }

  /** New regime, per category: the payment up to 20,000; then half plus 10,000; a quarter plus 20,000; 40,000. */
  lemma NewSystemTiers(payment: int)
    requires payment > 0
    ensures SingleLifeInsurance(payment, LifeInsuranceNewSystem) == Ok(
              if payment <= 20_000 then payment
              else if payment <= 40_000 then payment / 2 + 10_000
              else if payment <= 80_000 then payment / 4 + 20_000
              else 40_000)
  {
    var t := LifeInsuranceNewSystem;
    var i := TierIndex(payment, t);
    if payment <= 20_000 { assert AtMost(payment, t[0].paymentMax); assert i == 0; }
    else if payment <= 40_000 { assert AtMost(payment, t[1].paymentMax); assert i == 1; }
    else if payment <= 80_000 { assert AtMost(payment, t[2].paymentMax); assert i == 2; }
    else { assert AtMost(payment, t[3].paymentMax); assert i == 3; }
  }

  /** Old regime, per category: the payment up to 25,000; then half plus 12,500; a quarter plus 25,000; 50,000. */
  lemma OldSystemTiers(payment: int)
    requires payment > 0
    ensures SingleLifeInsurance(payment, LifeInsuranceOldSystem) == Ok(
              if payment <= 25_000 then payment
              else if payment <= 50_000 then payment / 2 + 12_500
              else if payment <= 100_000 then payment / 4 + 25_000
              else 50_000)
  {
    var t := LifeInsuranceOldSystem;
    DeductionLimitsShape();
    var i := TierIndex(payment, t);
    if payment <= 25_000 { assert AtMost(payment, t[0].paymentMax); assert i == 0; }
    else if payment <= 50_000 { assert AtMost(payment, t[1].paymentMax); assert i == 1; }
    else if payment <= 100_000 { assert AtMost(payment, t[2].paymentMax); assert i == 2; }
    else { assert AtMost(payment, t[3].paymentMax); assert i == 3; }
  }

  function LifeInsuranceTable(isNewSystem: bool): seq<LifeInsuranceDeductionEntry> {
    if isNewSystem then LifeInsuranceNewSystem else LifeInsuranceOldSystem
  }

  /** The per-category maximum: 40,000 under the new regime, 50,000 under the old. */
  function CategoryMax(isNewSystem: bool): int {
    if isNewSystem then 40_000 else 50_000
  }

  /**
   * Per category the deduction is positive, never more than the payment nor the
   * category maximum, and never falls as the payment grows.
   */
  lemma SingleLifeInsuranceBounds(payment: int, more: int, isNewSystem: bool)
    requires 0 < payment <= more
    ensures var d := SingleLifeInsurance(payment, LifeInsuranceTable(isNewSystem)).value;
            0 < d <= payment && d <= CategoryMax(isNewSystem)
    ensures SingleLifeInsurance(payment, LifeInsuranceTable(isNewSystem)).value <=
            SingleLifeInsurance(more, LifeInsuranceTable(isNewSystem)).value
  {
    if isNewSystem {
      NewSystemTiers(payment);
      NewSystemTiers(more);
    } else {
      OldSystemTiers(payment);
      OldSystemTiers(more);
    }
  }

  /** What one optional category contributes: nothing when absent, zero or negative. */
  function Contribution(payment: Option<int>, table: seq<LifeInsuranceDeductionEntry>): (r: int)
    ensures r >= 0
    ensures payment.None? || payment.value <= 0 ==> r == 0
  {
    if payment.Some? && payment.value > 0 then SingleLifeInsurance(payment.value, table).value else 0
  }

  /**
   * The life-insurance deduction: the categories' deductions summed (medical care
   * only under the new regime) and capped at 120,000 (new) or 100,000 (old).
   */
  function LifeInsuranceDeduction(payments: LifeInsurancePayments, isNewSystem: bool): (r: int)
    ensures 0 <= r <= (if isNewSystem then LifeInsuranceMaxNew else LifeInsuranceMaxOld)
  {
    var table := LifeInsuranceTable(isNewSystem);
    var maxDeduction := if isNewSystem then LifeInsuranceMaxNew else LifeInsuranceMaxOld;
    Min(Contribution(payments.generalLifeInsurance, table)
        + Contribution(payments.personalPensionInsurance, table)
        + (if isNewSystem then Contribution(payments.medicalCareInsurance, table) else 0),
        maxDeduction)
  }

  /** The source's accumulation into `totalDeduction`, then the cap. */
  method CalculateLifeInsuranceDeduction(payments: LifeInsurancePayments, isNewSystem: bool) returns (deduction: int)
    ensures deduction == LifeInsuranceDeduction(payments, isNewSystem)
  {
    var table := if isNewSystem then LifeInsuranceNewSystem else LifeInsuranceOldSystem;
    var maxDeduction := if isNewSystem then LifeInsuranceMaxNew else LifeInsuranceMaxOld;
    var totalDeduction := 0;
    if payments.generalLifeInsurance.Some? && payments.generalLifeInsurance.value > 0 {
      var d := CalculateSingleLifeInsurance(payments.generalLifeInsurance.value, table);
      totalDeduction := totalDeduction + d.value;
    }
    if payments.personalPensionInsurance.Some? && payments.personalPensionInsurance.value > 0 {
      var d := CalculateSingleLifeInsurance(payments.personalPensionInsurance.value, table);
      totalDeduction := totalDeduction + d.value;
    }
    if isNewSystem && payments.medicalCareInsurance.Some? && payments.medicalCareInsurance.value > 0 {
      var d := CalculateSingleLifeInsurance(payments.medicalCareInsurance.value, table);
      totalDeduction := totalDeduction + d.value;
    }
    deduction := Min(totalDeduction, maxDeduction);
  }

  /** Under the old regime the medical-care payment is ignored. */
  lemma OldSystemIgnoresMedicalCare(payments: LifeInsurancePayments, medicalCare: Option<int>)
    ensures LifeInsuranceDeduction(payments.(medicalCareInsurance := medicalCare), false) ==
            LifeInsuranceDeduction(payments, false)
  {
  }

  /** Below the cap the deduction is the plain sum of the three (two) categories. */
  lemma LifeInsuranceSumOfCategories(payments: LifeInsurancePayments, isNewSystem: bool)
    ensures var table := LifeInsuranceTable(isNewSystem);
            var sum := Contribution(payments.generalLifeInsurance, table)
                       + Contribution(payments.personalPensionInsurance, table)
                       + (if isNewSystem then Contribution(payments.medicalCareInsurance, table) else 0);
            LifeInsuranceDeduction(payments, isNewSystem) == Min(sum, if isNewSystem then 120_000 else 100_000) &&
            sum <= (if isNewSystem then 120_000 else 100_000)
  {
    var table := LifeInsuranceTable(isNewSystem);
    var g, p, m := payments.generalLifeInsurance, payments.personalPensionInsurance, payments.medicalCareInsurance;
    if g.Some? && g.value > 0 { SingleLifeInsuranceBounds(g.value, g.value, isNewSystem); }
    if p.Some? && p.value > 0 { SingleLifeInsuranceBounds(p.value, p.value, isNewSystem); }
    if m.Some? && m.value > 0 { SingleLifeInsuranceBounds(m.value, m.value, isNewSystem); }
  }

  /** The whole payment up to 50,000. */
  function CalculateEarthquakeInsuranceDeduction(annualPayment: int): (r: Result<int>)
    ensures r.Ok? <==> annualPayment >= 0
    ensures r.Err? ==> r.error == InvalidArgument
    ensures r.Ok? ==> r.value <= annualPayment && r.value <= EarthquakeInsuranceMax
    ensures r.Ok? ==> r.value == annualPayment || r.value == EarthquakeInsuranceMax
  {
    if annualPayment < 0 then Err(InvalidArgument)
    else Ok(Min(annualPayment, EarthquakeInsuranceMax))
  }

  /** The medical-expense floor: 100,000 or 5% of income (rounded down), whichever is less. */
  function MedicalExpenseFloor(income: int): (r: int)
    ensures income >= 0 ==> 0 <= r <= MedicalExpenseThreshold
    ensures 100 * r <= MedicalExpenseIncomeRatePercent * income
    ensures r == MedicalExpenseThreshold || 100 * r > MedicalExpenseIncomeRatePercent * income - 100
  {
    Min(MedicalExpenseThreshold, income * MedicalExpenseIncomeRatePercent / 100)
  }

  /** What exceeds the floor, between 0 and 2,000,000; nothing when there were no expenses. */
  function CalculateMedicalExpenseDeduction(medicalExpense: int, income: int): (r: Result<int>)
    ensures r.Ok? <==> medicalExpense >= 0 && income >= 0
    ensures r.Err? ==> r.error == InvalidArgument
    ensures r.Ok? ==> 0 <= r.value <= MedicalExpenseMax && r.value <= medicalExpense
    ensures r.Ok? ==> r.value <= Max(0, medicalExpense - MedicalExpenseFloor(income))
    ensures r.Ok? && medicalExpense > 0 ==>
              r.value >= Min(medicalExpense - MedicalExpenseFloor(income), MedicalExpenseMax)
  {
    if medicalExpense < 0 || income < 0 then Err(InvalidArgument)
    else if medicalExpense == 0 then Ok(0)
    else
      var threshold := MedicalExpenseFloor(income);
      var deduction := medicalExpense - threshold;
      Ok(Max(0, Min(deduction, MedicalExpenseMax)))
  }

  /** More expenses never reduce the medical deduction; more income never raises it. */
  lemma MedicalExpenseMonotone(expense: int, moreExpense: int, income: int, moreIncome: int)
    requires 0 <= expense <= moreExpense && 0 <= income <= moreIncome
    ensures CalculateMedicalExpenseDeduction(expense, income).value <=
            CalculateMedicalExpenseDeduction(moreExpense, income).value
    ensures CalculateMedicalExpenseDeduction(expense, moreIncome).value <=
            CalculateMedicalExpenseDeduction(expense, income).value
  {
  }

  /** What exceeds the 2,000 yen self-burden, up to 40% of income (rounded down). */
  function CalculateDonationDeduction(donation: int, income: int): (r: Result<int>)
    ensures r.Ok? <==> donation >= 0 && income >= 0
    ensures r.Err? ==> r.error == InvalidArgument
    ensures r.Ok? && donation <= DonationSelfBurden ==> r.value == 0
    ensures r.Ok? && donation > DonationSelfBurden ==>
              var limit := income * DonationIncomeLimitRatePercent / 100;
              r.value <= donation - DonationSelfBurden && r.value <= limit &&
              (r.value == donation - DonationSelfBurden || r.value == limit)
    ensures r.Ok? ==> r.value >= 0
  {
    if donation < 0 || income < 0 then Err(InvalidArgument)
    else if donation <= DonationSelfBurden then Ok(0)
    else
      var deduction := donation - DonationSelfBurden;
      var limit := income * DonationIncomeLimitRatePercent / 100;
      Ok(Min(deduction, limit))
  }

  /** What exceeds half of the salary-income deduction (rounded down). */
  function CalculateSpecialExpenseDeduction(expense: int, salaryDeduction: int): (r: Result<int>)
    ensures r.Ok? <==> expense >= 0 && salaryDeduction >= 0
    ensures r.Err? ==> r.error == InvalidArgument
    ensures r.Ok? ==> r.value >= 0 && r.value + salaryDeduction / 2 >= expense
    ensures r.Ok? ==> (r.value == 0 <==> expense <= salaryDeduction / 2)
    ensures r.Ok? && r.value > 0 ==> r.value + salaryDeduction / 2 == expense
  {
    if expense < 0 || salaryDeduction < 0 then Err(InvalidArgument)
    else
      var threshold := salaryDeduction / 2;
      if expense <= threshold then Ok(0) else Ok(expense - threshold)
  }

  /** The last residence year of the legacy 1% regime. */
  const LegacyRegimeLastYear: int := 2021

  /**
   * The housing-loan tax credit. Up to 2021: 1% of the balance, capped at 50,000,000
   * (credit 500,000) for certified housing and 40,000,000 (credit 400,000) for every
   * other type. From 2022: 0.7% of the balance up to the year's limit for the type.
   */
  function CalculateHousingLoanTaxCredit(loanBalance: int, residenceYear: int, housingType: HousingType): (r: Result<int>)
    ensures r.Ok? ==> r.value >= 0
  {
    if loanBalance < 0 then Err(InvalidArgument)
    else if loanBalance == 0 then Ok(0)
    else if residenceYear <= LegacyRegimeLastYear then
      var isCertified := housingType == NewCertified;
      var maxLoanBalance := if isCertified then 50_000_000 else 40_000_000;
      var maxDeduction := if isCertified then 500_000 else 400_000;
      var applicableLoanBalance := Min(loanBalance, maxLoanBalance);
      // floor(min(balance * 1%, maxDeduction)); the cap is whole yen, so flooring first is the same
      Ok(Min(applicableLoanBalance / 100, maxDeduction))
    else
      match HousingLoanLimits(residenceYear)
      case None => Err(UnknownResidenceYear)
      case Some(limits) =>
        var limit := LimitFor(limits, housingType);
        if limit.limit == 0 then Ok(0)
        else Ok(Min(loanBalance, limit.limit) * HousingLoanRatePerMille / 1000)
  }

  /** The largest credit a (year, type) combination can give: the legacy maximum, or limit x 0.7%. */
  function MaxHousingLoanCredit(residenceYear: int, housingType: HousingType): int
    requires residenceYear <= LegacyRegimeLastYear || HousingLoanLimits(residenceYear).Some?
  {
    if residenceYear <= LegacyRegimeLastYear then
      (if housingType == NewCertified then 500_000 else 400_000)
    else
      LimitFor(HousingLoanLimits(residenceYear).value, housingType).limit * HousingLoanRatePerMille / 1000
  }

  /**
   * The credit's value. Up to 2021 it is 1% of the balance, rounded down, capped at
   * the legacy maximum. From 2022 it is 0.7% of the balance, rounded down, while the
   * balance is within the year's limit for the type, and the (year, type) maximum
   * once the balance reaches that limit.
   */
  lemma HousingLoanCreditValue(loanBalance: int, residenceYear: int, housingType: HousingType)
    requires loanBalance >= 0
    requires residenceYear <= LegacyRegimeLastYear || HousingLoanLimits(residenceYear).Some?
    ensures residenceYear <= LegacyRegimeLastYear ==>
              CalculateHousingLoanTaxCredit(loanBalance, residenceYear, housingType) ==
              Ok(Min(loanBalance / 100, MaxHousingLoanCredit(residenceYear, housingType)))
    ensures residenceYear > LegacyRegimeLastYear ==>
              var limit := LimitFor(HousingLoanLimits(residenceYear).value, housingType).limit;
              (loanBalance <= limit ==>
                 CalculateHousingLoanTaxCredit(loanBalance, residenceYear, housingType) ==
                 Ok(loanBalance * HousingLoanRatePerMille / 1000)) &&
              (loanBalance >= limit ==>
                 CalculateHousingLoanTaxCredit(loanBalance, residenceYear, housingType) ==
                 Ok(MaxHousingLoanCredit(residenceYear, housingType)))
  {
    HousingLoanLimitsShape();
  }

  /**
   * The credit fails exactly for a negative balance, or for a positive balance
   * with a residence year from 2022 that the table lacks, and with no other error.
   */
  lemma HousingLoanCreditErrors(loanBalance: int, residenceYear: int, housingType: HousingType)
    ensures CalculateHousingLoanTaxCredit(loanBalance, residenceYear, housingType) == Err(InvalidArgument)
            <==> loanBalance < 0
    ensures CalculateHousingLoanTaxCredit(loanBalance, residenceYear, housingType) == Err(UnknownResidenceYear)
            <==> loanBalance > 0 && residenceYear > LegacyRegimeLastYear && HousingLoanLimits(residenceYear).None?
    ensures CalculateHousingLoanTaxCredit(loanBalance, residenceYear, housingType).Err? ==>
            CalculateHousingLoanTaxCredit(loanBalance, residenceYear, housingType).error in {InvalidArgument, UnknownResidenceYear}
  {
    HousingLoanLimitsShape();
  }

  /**
   * The credit never exceeds the maximum of its (year, type) combination, never
   * exceeds the balance times the regime's rate, and never falls as the balance grows.
   */
  lemma HousingLoanCreditBounds(loanBalance: int, moreBalance: int, residenceYear: int, housingType: HousingType)
    requires 0 <= loanBalance <= moreBalance
    requires residenceYear <= LegacyRegimeLastYear || HousingLoanLimits(residenceYear).Some?
    ensures var c := CalculateHousingLoanTaxCredit(loanBalance, residenceYear, housingType);
            c.Ok? && c.value <= MaxHousingLoanCredit(residenceYear, housingType) &&
            c.value <= (if residenceYear <= LegacyRegimeLastYear then loanBalance / 100
                        else loanBalance * HousingLoanRatePerMille / 1000)
    ensures CalculateHousingLoanTaxCredit(loanBalance, residenceYear, housingType).value <=
            CalculateHousingLoanTaxCredit(moreBalance, residenceYear, housingType).value
  {
    HousingLoanLimitsShape();
  }

  /** In the legacy regime every type other than certified housing gets the same credit. */
  lemma LegacyNonCertifiedTypesAgree(loanBalance: int, residenceYear: int, housingType: HousingType)
    requires residenceYear <= LegacyRegimeLastYear && housingType != NewCertified
    ensures CalculateHousingLoanTaxCredit(loanBalance, residenceYear, housingType) ==
            CalculateHousingLoanTaxCredit(loanBalance, residenceYear, Used)
  {
  }

  /** From 2023 to 2025 "new-other" housing gets no credit; in 2022 it does. */
  lemma NewOtherEligibility(loanBalance: int, residenceYear: int)
    requires loanBalance >= 0
    ensures 2023 <= residenceYear <= 2025 ==>
              CalculateHousingLoanTaxCredit(loanBalance, residenceYear, NewOther) == Ok(0)
    ensures residenceYear == 2022 && loanBalance >= 1_000 ==>
              CalculateHousingLoanTaxCredit(loanBalance, residenceYear, NewOther).value > 0
  {
    HousingLoanLimitsShape();
  }
}
