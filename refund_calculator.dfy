/**
 * The refund: taxes of the baseline scenario (basic and social-insurance
 * deductions only) against taxes of the full scenario (every deduction, then the
 * housing-loan credit), and their difference.
 */
module RefundCalculator {
  import opened Wrappers
  import opened Common
  import opened DomainTypes
  import opened SalaryDeduction
  import opened TaxRates
  import opened TaxCalculator
  import opened DeductionCalculator

  /** Taxable income and both taxes for a salary income and a total deduction. */
  function DetailFor(salaryIncome: int, totalDeduction: int): (r: Result<TaxCalculationDetail>)
    ensures r.Ok? <==> salaryIncome >= 0 && totalDeduction >= 0 && CalculateIncomeTax(Max(0, salaryIncome - totalDeduction)).Ok?
    ensures r.Err? ==> r.error == InvalidArgument || r.error == BracketNotFound
    ensures r.Err? ==> (r.error == InvalidArgument <==> salaryIncome < 0 || totalDeduction < 0)
    ensures r.Ok? ==> r.value.salaryIncome == salaryIncome && r.value.totalDeduction == totalDeduction
    ensures r.Ok? ==> r.value.taxableIncome == Max(0, salaryIncome - totalDeduction)
    ensures r.Ok? ==> 100 * r.value.residentTax <= ResidentTaxRatePercent * r.value.taxableIncome < 100 * r.value.residentTax + 100
  {
    var taxableIncome :- CalculateTaxableIncome(salaryIncome, totalDeduction);
    var incomeTax :- CalculateIncomeTax(taxableIncome);
    // cannot fail: the taxable income is non-negative
    var residentTax := CalculateResidentTax(taxableIncome).value;
    Ok(TaxCalculationDetail(salaryIncome, totalDeduction, taxableIncome, incomeTax, residentTax))
  }

  /** The baseline scenario: only the basic deduction and the social-insurance estimate. */
  function CalculateWithMinimalDeductions(salaryIncome: int, socialInsurance: int): (r: Result<TaxCalculationDetail>)
    ensures r.Ok? ==> r.value.totalDeduction == BasicDeduction + socialInsurance
    ensures r.Ok? ==> r.value.taxableIncome == Max(0, salaryIncome - BasicDeduction - socialInsurance)
  {
    DetailFor(salaryIncome, BasicDeduction + socialInsurance)
  }

  /** Every present group of the input carries a non-negative amount where a deduction checks it. */
  predicate GroupAmountsValid(input: DeductionInput) {
    (input.ideco.Some? ==> input.ideco.value.annualPayment >= 0) &&
    (input.earthquakeInsurance.Some? ==> input.earthquakeInsurance.value.annualPayment >= 0) &&
    (input.medicalExpense.Some? ==> input.medicalExpense.value.totalExpense >= 0) &&
    (input.donation.Some? ==> input.donation.value.furusato + input.donation.value.other >= 0) &&
    (input.specialExpense.Some? ==> input.specialExpense.value.commuteExpense >= 0)
  }

  predicate NonNegativeSummary(d: DeductionSummary) {
    d.ideco >= 0 && d.lifeInsurance >= 0 && d.earthquakeInsurance >= 0 && d.medicalExpense >= 0 &&
    d.donation >= 0 && d.specialExpense >= 0 && d.basicDeduction >= 0 && d.socialInsurance >= 0
  }

  /** Each group's deduction, or 0 for a group that is absent. */
  function CalculateAllDeductions(input: DeductionInput, salaryIncome: int, salaryDeduction: int, socialInsurance: int)
    : (r: Result<DeductionSummary>)
    ensures salaryIncome >= 0 && salaryDeduction >= 0 ==> (r.Ok? <==> GroupAmountsValid(input))
    ensures r.Err? ==> r.error == InvalidArgument
    ensures r.Ok? ==> r.value.basicDeduction == BasicDeduction && r.value.socialInsurance == socialInsurance
    ensures r.Ok? && socialInsurance >= 0 ==> NonNegativeSummary(r.value)
    ensures r.Ok? ==> r.value.ideco == (if input.ideco.Some? then input.ideco.value.annualPayment else 0)
    ensures r.Ok? && input.lifeInsurance.None? ==> r.value.lifeInsurance == 0
    ensures r.Ok? && input.earthquakeInsurance.None? ==> r.value.earthquakeInsurance == 0
    ensures r.Ok? && input.medicalExpense.None? ==> r.value.medicalExpense == 0
    ensures r.Ok? && input.donation.None? ==> r.value.donation == 0
    ensures r.Ok? && input.specialExpense.None? ==> r.value.specialExpense == 0
    ensures r.Ok? && input.lifeInsurance.Some? ==>
              var l := input.lifeInsurance.value;
              r.value.lifeInsurance == LifeInsuranceDeduction(
                LifeInsurancePayments(l.generalLifeInsurance, l.personalPensionInsurance, l.medicalCareInsurance),
                l.isNewSystem)
    ensures r.Ok? && input.earthquakeInsurance.Some? ==>
              Ok(r.value.earthquakeInsurance) ==
              CalculateEarthquakeInsuranceDeduction(input.earthquakeInsurance.value.annualPayment)
    ensures r.Ok? && input.medicalExpense.Some? ==>
              Ok(r.value.medicalExpense) ==
              CalculateMedicalExpenseDeduction(input.medicalExpense.value.totalExpense, salaryIncome)
    ensures r.Ok? && input.donation.Some? ==>
              Ok(r.value.donation) ==
              CalculateDonationDeduction(input.donation.value.furusato + input.donation.value.other, salaryIncome)
    ensures r.Ok? && input.specialExpense.Some? ==>
              Ok(r.value.specialExpense) ==
              CalculateSpecialExpenseDeduction(input.specialExpense.value.commuteExpense, salaryDeduction)
  {
    var ideco :- if input.ideco.Some? then CalculateIdecoDeduction(input.ideco.value.annualPayment) else Ok(0);
    var lifeInsurance :=
      if input.lifeInsurance.Some? then
        var l := input.lifeInsurance.value;
        LifeInsuranceDeduction(
          LifeInsurancePayments(l.generalLifeInsurance, l.personalPensionInsurance, l.medicalCareInsurance),
          l.isNewSystem)
      else 0;
    var earthquakeInsurance :-
      if input.earthquakeInsurance.Some? then
        CalculateEarthquakeInsuranceDeduction(input.earthquakeInsurance.value.annualPayment)
      else Ok(0);
    var medicalExpense :-
      if input.medicalExpense.Some? then
        CalculateMedicalExpenseDeduction(input.medicalExpense.value.totalExpense, salaryIncome)
      else Ok(0);
    var donation :-
      if input.donation.Some? then
        CalculateDonationDeduction(input.donation.value.furusato + input.donation.value.other, salaryIncome)
      else Ok(0);
    var specialExpense :-
      if input.specialExpense.Some? then
        CalculateSpecialExpenseDeduction(input.specialExpense.value.commuteExpense, salaryDeduction)
      else Ok(0);
    Ok(DeductionSummary(ideco, lifeInsurance, earthquakeInsurance, medicalExpense, donation, specialExpense,
                        BasicDeduction, socialInsurance))
  }

  function TotalIncomeDeduction(d: DeductionSummary): int {
    d.ideco + d.lifeInsurance + d.earthquakeInsurance + d.medicalExpense + d.donation + d.specialExpense
    + d.basicDeduction + d.socialInsurance
  }

  /** The full scenario: the eight income deductions summed. */
  function CalculateWithDeductions(salaryIncome: int, deductions: DeductionSummary): (r: Result<TaxCalculationDetail>)
    ensures r.Ok? ==> r.value.totalDeduction == TotalIncomeDeduction(deductions)
    ensures r.Ok? ==> r.value.taxableIncome == Max(0, salaryIncome - TotalIncomeDeduction(deductions))
  {
    DetailFor(salaryIncome, TotalIncomeDeduction(deductions))
  }

  /** The housing-loan tax credit of the input, 0 when it has no housing loan. */
  function HousingLoanCredit(input: DeductionInput): (r: Result<int>)
    ensures input.housingLoan.None? ==> r == Ok(0)
    ensures r.Ok? ==> r.value >= 0
  {
    if input.housingLoan.Some? then
      var h := input.housingLoan.value;
      CalculateHousingLoanTaxCredit(h.yearEndBalance, h.residenceYear, h.housingType)
    else Ok(0)
  }

  /** The income deductions of a deduction detail, without the tax credit. */
  function SummaryOf(d: DeductionDetail): DeductionSummary {
    DeductionSummary(d.ideco, d.lifeInsurance, d.earthquakeInsurance, d.medicalExpense,
                     d.donation, d.specialExpense, d.basicDeduction, d.socialInsurance)
  }

  /** The summary extended with the housing-loan tax credit. */
  function ConvertToDeductionDetail(deductions: DeductionSummary, input: DeductionInput): (r: Result<DeductionDetail>)
    ensures r.Ok? <==> HousingLoanCredit(input).Ok?
    ensures r.Ok? ==> SummaryOf(r.value) == deductions
    ensures r.Ok? ==> r.value.housingLoanTaxCredit == HousingLoanCredit(input).value
  {
    var housingLoanTaxCredit :- HousingLoanCredit(input);
    Ok(DeductionDetail(deductions.ideco, deductions.lifeInsurance, deductions.earthquakeInsurance,
                       deductions.medicalExpense, deductions.donation, deductions.specialExpense,
                       deductions.basicDeduction, deductions.socialInsurance, housingLoanTaxCredit))
  }

  /** The full scenario's taxes once the housing-loan credit is applied. */
  datatype FinalTaxes = FinalTaxes(incomeTax: int, residentTaxCredit: real, residentTax: real)

  /** The most the resident tax can absorb of the credit: 7% of taxable income, at most 136,500 (not rounded). */
  function ResidentTaxCreditLimit(taxableIncome: int): real {
    MinReal(taxableIncome as real * 0.07, 136_500.0)
  }

  /**
   * The credit goes against income tax first; what income tax cannot absorb goes
   * against resident tax, up to its limit. Neither tax drops below 0.
   */
  function ApplyHousingLoanCredit(after: TaxCalculationDetail, credit: int): (r: FinalTaxes)
    requires after.incomeTax >= 0 && after.residentTax >= 0 && after.taxableIncome >= 0 && credit >= 0
    ensures 0 <= r.incomeTax <= after.incomeTax
    ensures 0.0 <= r.residentTax <= after.residentTax as real
    ensures 0.0 <= r.residentTaxCredit <= ResidentTaxCreditLimit(after.taxableIncome)
    ensures r.residentTaxCredit <= 136_500.0
    ensures credit <= after.incomeTax ==> r.incomeTax == after.incomeTax - credit && r.residentTaxCredit == 0.0
    ensures credit >= after.incomeTax ==>
              r.incomeTax == 0 &&
              r.residentTaxCredit == MinReal((credit - after.incomeTax) as real, ResidentTaxCreditLimit(after.taxableIncome))
    ensures (after.incomeTax - r.incomeTax) as real + r.residentTaxCredit ==
            MinReal(credit as real, after.incomeTax as real + ResidentTaxCreditLimit(after.taxableIncome))
    ensures r.residentTax == MaxReal(0.0, after.residentTax as real - r.residentTaxCredit)
  {
    var finalIncomeTax := Max(0, after.incomeTax - credit);
    var residentTaxCreditLimit := ResidentTaxCreditLimit(after.taxableIncome);
    var remainingCredit := Max(0, credit - after.incomeTax);
    var residentTaxCredit := MinReal(remainingCredit as real, residentTaxCreditLimit);
    var finalResidentTax := MaxReal(0.0, after.residentTax as real - residentTaxCredit);
    FinalTaxes(finalIncomeTax, residentTaxCredit, finalResidentTax)
  }

  /** The two scenarios, the income deductions and the credit, before the credit is applied. */
  datatype Scenarios = Scenarios(
    beforeDeduction: TaxCalculationDetail,
    deductions: DeductionSummary,
    afterDeduction: TaxCalculationDetail,
    housingLoanTaxCredit: int)

  /** The source throws when the salary is negative, a checked group amount is negative, or the credit fails. */
  predicate ValidationFailure(input: DeductionInput) {
    input.salary < 0 || !GroupAmountsValid(input) || HousingLoanCredit(input).Err?
  }

  /** The baseline scenario's taxable income, for a non-negative salary. */
  function BaselineTaxableIncome(input: DeductionInput): int
    requires input.salary >= 0
  {
    var salaryIncome := CalculateSalaryIncome(input.salary).value;
    Max(0, salaryIncome - (BasicDeduction + CalculateSocialInsurance(input.salary).value))
  }

  /** The full scenario's taxable income, for a non-negative salary and valid group amounts. */
  function FullTaxableIncome(input: DeductionInput): int
    requires input.salary >= 0 && GroupAmountsValid(input)
  {
    var salaryIncome := CalculateSalaryIncome(input.salary).value;
    var socialInsurance := CalculateSocialInsurance(input.salary).value;
    var deductions := CalculateAllDeductions(input, salaryIncome, input.salary - salaryIncome, socialInsurance).value;
    Max(0, salaryIncome - TotalIncomeDeduction(deductions))
  }

  /** The input has none of the seven optional groups. */
  predicate NoDeductionGroups(input: DeductionInput) {
    input.ideco.None? && input.lifeInsurance.None? && input.earthquakeInsurance.None? &&
    input.medicalExpense.None? && input.donation.None? && input.specialExpense.None? && input.housingLoan.None?
  }

  /** Which taxable incomes have an income tax, for both scenarios. */
  lemma ScenarioTaxesDefined(input: DeductionInput)
    ensures input.salary >= 0 ==>
              (CalculateIncomeTax(BaselineTaxableIncome(input)).Ok? <==> !InBracketGap(BaselineTaxableIncome(input)))
    ensures input.salary >= 0 && GroupAmountsValid(input) ==>
              (CalculateIncomeTax(FullTaxableIncome(input)).Ok? <==> !InBracketGap(FullTaxableIncome(input)))
  {
    if input.salary >= 0 {
      IncomeTaxDefinedIff(BaselineTaxableIncome(input));
      if GroupAmountsValid(input) {
        IncomeTaxDefinedIff(FullTaxableIncome(input));
      }
    }
  }

  /**
   * Each part of the scenarios is what its step computes from the input: the
   * baseline from the salary income and the social-insurance estimate, the
   * income deductions group by group, the full scenario from those, and the
   * housing-loan credit.
   */
  predicate ComputedStages(input: DeductionInput, s: Scenarios) {
    input.salary >= 0 &&
    var salaryIncome := CalculateSalaryIncome(input.salary).value;
    var socialInsurance := CalculateSocialInsurance(input.salary).value;
    CalculateWithMinimalDeductions(salaryIncome, socialInsurance) == Ok(s.beforeDeduction) &&
    CalculateAllDeductions(input, salaryIncome, input.salary - salaryIncome, socialInsurance) == Ok(s.deductions) &&
    CalculateWithDeductions(salaryIncome, s.deductions) == Ok(s.afterDeduction) &&
    HousingLoanCredit(input) == Ok(s.housingLoanTaxCredit)
  }

  /** What the steps guarantee about the scenarios they compute. */
  lemma ComputedStagesFacts(input: DeductionInput, s: Scenarios)
    requires ComputedStages(input, s)
    ensures !ValidationFailure(input)
    ensures s.beforeDeduction.taxableIncome == BaselineTaxableIncome(input)
    ensures s.afterDeduction.taxableIncome == FullTaxableIncome(input)
    ensures s.housingLoanTaxCredit >= 0
    ensures s.beforeDeduction.salaryIncome == s.afterDeduction.salaryIncome ==
              Max(0, input.salary - StatutorySalaryDeduction(input.salary))
    ensures s.beforeDeduction.totalDeduction == BasicDeduction + s.deductions.socialInsurance
    ensures s.deductions.basicDeduction == BasicDeduction
    ensures 100 * s.deductions.socialInsurance <= SocialInsuranceRatePercent * input.salary
              < 100 * s.deductions.socialInsurance + 100
    ensures NonNegativeSummary(s.deductions)
    ensures s.afterDeduction.totalDeduction == TotalIncomeDeduction(s.deductions) >= s.beforeDeduction.totalDeduction
    ensures 0 <= s.afterDeduction.taxableIncome <= s.beforeDeduction.taxableIncome
    ensures 0 <= s.afterDeduction.incomeTax <= s.beforeDeduction.incomeTax
    ensures 0 <= s.afterDeduction.residentTax <= s.beforeDeduction.residentTax
    ensures NoDeductionGroups(input) ==> s.beforeDeduction == s.afterDeduction
  {
    SalaryIncomeIsStatutory(input.salary);
    IncomeTaxMonotone(s.afterDeduction.taxableIncome, s.beforeDeduction.taxableIncome);
  }

  /**
   * Steps 1 to 4 of the refund computation, failing where the source throws, in
   * the same order. A validation failure makes it fail; otherwise it succeeds
   * exactly when neither scenario's taxable income falls in a gap between
   * income-tax brackets (`ScenariosFailure`). On success each part is what its
   * step computes from the input. Both scenarios share the statutory salary income; the
   * baseline deducts the basic deduction and the 15% social-insurance estimate;
   * the full scenario deducts at least as much, so its taxable income and both
   * its taxes are no higher; with no deduction group the two coincide.
   */
  function CalculateScenarios(input: DeductionInput): (r: Result<Scenarios>)
    ensures input.salary < 0 ==> r == Err(InvalidArgument)
    ensures ValidationFailure(input) ==> r.Err?
    ensures r.Ok? ==> ComputedStages(input, r.value)
    ensures r.Ok? ==> !ValidationFailure(input) &&
                      r.value.beforeDeduction.taxableIncome == BaselineTaxableIncome(input) &&
                      r.value.afterDeduction.taxableIncome == FullTaxableIncome(input)
    ensures r.Ok? ==> HousingLoanCredit(input) == Ok(r.value.housingLoanTaxCredit) && r.value.housingLoanTaxCredit >= 0
    ensures r.Ok? ==>
              var s := r.value;
              s.beforeDeduction.salaryIncome == s.afterDeduction.salaryIncome ==
                Max(0, input.salary - StatutorySalaryDeduction(input.salary)) &&
              s.beforeDeduction.totalDeduction == BasicDeduction + s.deductions.socialInsurance &&
              s.deductions.basicDeduction == BasicDeduction &&
              100 * s.deductions.socialInsurance <= SocialInsuranceRatePercent * input.salary
                < 100 * s.deductions.socialInsurance + 100 &&
              NonNegativeSummary(s.deductions) &&
              s.afterDeduction.totalDeduction == TotalIncomeDeduction(s.deductions) &&
              s.afterDeduction.totalDeduction >= s.beforeDeduction.totalDeduction
    ensures r.Ok? ==>
              var s := r.value;
              0 <= s.afterDeduction.taxableIncome <= s.beforeDeduction.taxableIncome &&
              0 <= s.afterDeduction.incomeTax <= s.beforeDeduction.incomeTax &&
              0 <= s.afterDeduction.residentTax <= s.beforeDeduction.residentTax
    ensures r.Ok? && NoDeductionGroups(input) ==> r.value.beforeDeduction == r.value.afterDeduction
  {
    var salaryIncome :- CalculateSalaryIncome(input.salary);
    var salaryDeduction := input.salary - salaryIncome;
    // cannot fail once the salary income was computed
    var socialInsurance := CalculateSocialInsurance(input.salary).value;
    var beforeDeduction :- CalculateWithMinimalDeductions(salaryIncome, socialInsurance);
    var deductions :- CalculateAllDeductions(input, salaryIncome, salaryDeduction, socialInsurance);
    var afterDeduction :- CalculateWithDeductions(salaryIncome, deductions);
    var housingLoanTaxCredit :- HousingLoanCredit(input);
    var scenarios := Scenarios(beforeDeduction, deductions, afterDeduction, housingLoanTaxCredit);
    ComputedStagesFacts(input, scenarios);
    Ok(scenarios)
  }

  /**
   * Without a validation failure the scenario stage fails only for a taxable
   * income that has no income tax, and then for that bracket gap.
   */
  lemma ScenariosFailure(input: DeductionInput)
    ensures !ValidationFailure(input) ==>
              (CalculateScenarios(input).Ok? <==>
                 CalculateIncomeTax(BaselineTaxableIncome(input)).Ok? && CalculateIncomeTax(FullTaxableIncome(input)).Ok?)
    ensures CalculateScenarios(input).Err? && !ValidationFailure(input) ==> CalculateScenarios(input).error == BracketNotFound
  {
  }

  /**
   * The whole refund computation: the credit applied, the refund, the marginal
   * rate and the breakdown. It fails exactly when the scenario stage does. Both
   * refund parts are non-negative, at most the baseline tax they come from, and
   * together at most what the deductions save plus the credit. The reported
   * credit is the one applied; without a housing loan the refund is exactly what
   * the deductions save on each tax, and without any group it is 0.
   */
  function Calculate(input: DeductionInput): (r: Result<RefundResult>)
    ensures input.salary < 0 ==> r == Err(InvalidArgument)
    ensures CalculateScenarios(input).Err? ==> r == Err(CalculateScenarios(input).error)
    ensures CalculateScenarios(input).Ok? ==> r.Ok?
    ensures r.Ok? ==> !ValidationFailure(input) &&
                      r.value.breakdown.beforeDeduction.taxableIncome == BaselineTaxableIncome(input) &&
                      r.value.breakdown.afterDeduction.taxableIncome == FullTaxableIncome(input)
    ensures r.Ok? ==> r.value.breakdown.deductions.housingLoanTaxCredit == HousingLoanCredit(input).value
    ensures r.Ok? ==> r.value.incomeTaxRefund >= 0 && r.value.residentTaxReduction >= 0.0
    ensures r.Ok? ==> r.value.totalRefund == r.value.incomeTaxRefund as real + r.value.residentTaxReduction
    ensures r.Ok? ==>
              var b := r.value.breakdown;
              r.value.incomeTaxRefund <= b.beforeDeduction.incomeTax &&
              r.value.residentTaxReduction <= b.beforeDeduction.residentTax as real &&
              r.value.totalRefund <= (b.beforeDeduction.incomeTax - b.afterDeduction.incomeTax
                                      + b.beforeDeduction.residentTax - b.afterDeduction.residentTax
                                      + b.deductions.housingLoanTaxCredit) as real
    ensures r.Ok? && input.housingLoan.None? ==>
              var b := r.value.breakdown;
              b.deductions.housingLoanTaxCredit == 0 &&
              r.value.incomeTaxRefund == b.beforeDeduction.incomeTax - b.afterDeduction.incomeTax &&
              r.value.residentTaxReduction == (b.beforeDeduction.residentTax - b.afterDeduction.residentTax) as real
    ensures r.Ok? && NoDeductionGroups(input) ==>
              r.value.breakdown.beforeDeduction == r.value.breakdown.afterDeduction && r.value.totalRefund == 0.0
    ensures r.Ok? ==>
              var s := CalculateScenarios(input).value;
              var b := r.value.breakdown;
              b.beforeDeduction == s.beforeDeduction && b.afterDeduction == s.afterDeduction &&
              Ok(b.deductions) == ConvertToDeductionDetail(s.deductions, input) &&
              Ok(b.applicableTaxRatePercent) == GetApplicableTaxRate(s.afterDeduction.taxableIncome)
    ensures r.Ok? ==>
              var s := CalculateScenarios(input).value;
              var f := ApplyHousingLoanCredit(s.afterDeduction, s.housingLoanTaxCredit);
              r.value.incomeTaxRefund == s.beforeDeduction.incomeTax - f.incomeTax &&
              r.value.residentTaxReduction == s.beforeDeduction.residentTax as real - f.residentTax
  {
    var s :- CalculateScenarios(input);
    var final := ApplyHousingLoanCredit(s.afterDeduction, s.housingLoanTaxCredit);
    var incomeTaxRefund := Max(0, s.beforeDeduction.incomeTax - final.incomeTax);
    var residentTaxReduction := MaxReal(0.0, s.beforeDeduction.residentTax as real - final.residentTax);
    ApplicableRateMatchesIncomeTax(s.afterDeduction.taxableIncome);
    // cannot fail: the income tax of the same taxable income was computed
    var applicableTaxRate := GetApplicableTaxRate(s.afterDeduction.taxableIncome).value;
    // cannot fail: the same credit was just computed
    var detail := ConvertToDeductionDetail(s.deductions, input).value;
    Ok(RefundResult(incomeTaxRefund as real + residentTaxReduction, incomeTaxRefund, residentTaxReduction,
                    RefundBreakdown(s.beforeDeduction, s.afterDeduction, detail, applicableTaxRate)))
  }

  /**
   * A validation failure makes the computation fail; without one it succeeds
   * exactly when neither scenario's taxable income falls in a gap between
   * income-tax brackets, and otherwise fails for that gap.
   */
  lemma CalculateSucceedsIff(input: DeductionInput)
    ensures ValidationFailure(input) ==> Calculate(input).Err?
    ensures !ValidationFailure(input) ==>
              (Calculate(input).Ok? <==>
                 !InBracketGap(BaselineTaxableIncome(input)) && !InBracketGap(FullTaxableIncome(input)))
    ensures Calculate(input).Err? && !ValidationFailure(input) ==> Calculate(input).error == BracketNotFound
  {
    ScenariosFailure(input);
    ScenarioTaxesDefined(input);
  }
}
