/**
 * The acceptance predicate of the input schema: the ranges each entered amount
 * must lie in before the refund is computed. The current year, which the schema
 * reads from the clock, is a parameter.
 */
module InputValidator {
  import opened Wrappers
  import opened DomainTypes
  import opened TaxRates
  import opened TaxCalculator
  import opened DeductionCalculator
  import opened HousingLoanTable
  import opened RefundCalculator
  import opened RefundProperties

  const MinSalary: int := 1_000_000
  const MaxSalary: int := 99_990_000
  /** The statutory annual iDeCo ceiling. */
  const MaxIdecoPayment: int := 816_000
  /** Above the highest real annual premium; not the 50,000 deduction cap. */
  const MaxEarthquakePayment: int := 100_000
  const MaxMedicalExpense: int := 10_000_000
  const MaxCommuteExpense: int := 10_000_000
  const MaxLoanBalance: int := 100_000_000
  const EarliestResidenceYear: int := 2015

  /** An optional amount is absent or non-negative. */
  predicate OptionalNonNegative(v: Option<int>) {
    v.None? || v.value >= 0
  }

  predicate LifeInsuranceAccepted(l: LifeInsuranceInput) {
    OptionalNonNegative(l.generalLifeInsurance) && OptionalNonNegative(l.personalPensionInsurance) &&
    OptionalNonNegative(l.medicalCareInsurance)
  }

  predicate HousingLoanAccepted(h: HousingLoanInput, currentYear: int) {
    0 <= h.yearEndBalance <= MaxLoanBalance && EarliestResidenceYear <= h.residenceYear <= currentYear
  }

  /** The schema accepts the input: the salary and each present group lie in range; every group is optional. */
  predicate IsAcceptedInput(input: DeductionInput, currentYear: int)
    ensures IsAcceptedInput(input, currentYear) ==> input.salary > 0 && GroupAmountsValid(input)
  {
    MinSalary <= input.salary <= MaxSalary &&
    (input.ideco.Some? ==> 0 <= input.ideco.value.annualPayment <= MaxIdecoPayment) &&
    (input.lifeInsurance.Some? ==> LifeInsuranceAccepted(input.lifeInsurance.value)) &&
    (input.earthquakeInsurance.Some? ==>
       0 <= input.earthquakeInsurance.value.annualPayment <= MaxEarthquakePayment) &&
    (input.medicalExpense.Some? ==> 0 <= input.medicalExpense.value.totalExpense <= MaxMedicalExpense) &&
    (input.donation.Some? ==> input.donation.value.furusato >= 0 && input.donation.value.other >= 0) &&
    (input.specialExpense.Some? ==> 0 <= input.specialExpense.value.commuteExpense <= MaxCommuteExpense) &&
    (input.housingLoan.Some? ==> HousingLoanAccepted(input.housingLoan.value, currentYear))
  }

  /**
   * While the housing-loan table covers the current year, an accepted input never
   * reaches an error path of the deduction and credit calculations, so the refund
   * computation succeeds exactly when neither taxable income falls in a gap
   * between income-tax brackets.
   */
  lemma AcceptedInputIsValid(input: DeductionInput, currentYear: int)
    requires IsAcceptedInput(input, currentYear) && currentYear <= 2025
    ensures !ValidationFailure(input)
    ensures Calculate(input).Ok? <==>
              !InBracketGap(BaselineTaxableIncome(input)) && !InBracketGap(FullTaxableIncome(input))
  {
    if input.housingLoan.Some? {
      HousingLoanLimitsShape();
      var h := input.housingLoan.value;
      HousingLoanCreditErrors(h.yearEndBalance, h.residenceYear, h.housingType);
    }
    CalculateSucceedsIff(input);
  }

  /** An input with only a salary in range, such as the store's default, is accepted in any year. */
  lemma SalaryOnlyIsAccepted(salary: int, currentYear: int)
    requires MinSalary <= salary <= MaxSalary
    ensures IsAcceptedInput(DeductionInput(salary, None, None, None, None, None, None, None), currentYear)
  {
  }

  /** The schema accepts inputs whose full scenario falls in a bracket gap; the computation then fails. */
  lemma AcceptedInputInBracketGap()
    ensures var input := ExampleInput(None).(ideco := Some(IdecoInput(380_500)));
            IsAcceptedInput(input, 2025) && Calculate(input) == Err(BracketNotFound)
  {
    BracketGapScenario();
  }

  /**
   * Once the current year is past the table, the schema accepts a loan from that
   * year, which the credit calculation has no limits for.
   */
  lemma AcceptedLoanBeyondTable(balance: int, housingType: HousingType)
    requires 0 < balance <= MaxLoanBalance
    ensures var input := ExampleInput(Some(HousingLoanInput(balance, 2026, housingType)));
            IsAcceptedInput(input, 2026) && ValidationFailure(input) &&
            CalculateHousingLoanTaxCredit(balance, 2026, housingType) == Err(UnknownResidenceYear)
  {
  }
}
