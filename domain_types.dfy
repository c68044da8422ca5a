/** The records the engine consumes and produces (src/domain/types). All amounts are yen. */
module DomainTypes {
  import opened Wrappers

  /** The five housing types that key the housing-loan limit table. */
  datatype HousingType = NewCertified | NewZeh | NewEnergySaving | NewOther | Used

  /** An upper bound of a table entry; `PositiveInfinity` stands for `Number.POSITIVE_INFINITY`. */
  datatype Bound = Finite(n: int) | PositiveInfinity

  predicate AtMost(x: int, b: Bound) {
    b.PositiveInfinity? || x <= b.n
  }

  /**
   * One band of the salary-income deduction table: either a fixed `deduction`
   * or `floor(salary * ratePercent / 100 + adjustment)`.
   */
  datatype SalaryDeductionEntry = SalaryDeductionEntry(
    min: int, max: Bound,
    deduction: Option<int>, ratePercent: Option<int>, adjustment: Option<int>)

  /** One progressive income-tax bracket: `floor(income * ratePercent / 100 - deduction)`. */
  datatype TaxRateEntry = TaxRateEntry(min: int, max: Bound, ratePercent: int, deduction: int)

  /** A tier boundary of the life-insurance deduction tables. */
  datatype LifeInsuranceDeductionEntry = LifeInsuranceDeductionEntry(paymentMax: Bound)

  /** The borrowing limit of one (residence year, housing type) combination; 0 means ineligible. */
  datatype HousingLoanLimit = HousingLoanLimit(limit: int)

  datatype IdecoInput = IdecoInput(annualPayment: int)

  datatype LifeInsuranceInput = LifeInsuranceInput(
    isNewSystem: bool,
    generalLifeInsurance: Option<int>,
    personalPensionInsurance: Option<int>,
    medicalCareInsurance: Option<int>)

  datatype EarthquakeInsuranceInput = EarthquakeInsuranceInput(annualPayment: int)

  datatype MedicalExpenseInput = MedicalExpenseInput(totalExpense: int)

  datatype DonationInput = DonationInput(furusato: int, other: int)

  datatype SpecialExpenseInput = SpecialExpenseInput(commuteExpense: int)

  datatype HousingLoanInput = HousingLoanInput(yearEndBalance: int, residenceYear: int, housingType: HousingType)

  /** Everything the user enters: the salary and seven optional deduction groups. */
  datatype DeductionInput = DeductionInput(
    salary: int,
    ideco: Option<IdecoInput>,
    lifeInsurance: Option<LifeInsuranceInput>,
    earthquakeInsurance: Option<EarthquakeInsuranceInput>,
    medicalExpense: Option<MedicalExpenseInput>,
    donation: Option<DonationInput>,
    specialExpense: Option<SpecialExpenseInput>,
    housingLoan: Option<HousingLoanInput>)

  /** The three life-insurance payment categories handed to the deduction calculator. */
  datatype LifeInsurancePayments = LifeInsurancePayments(
    generalLifeInsurance: Option<int>,
    personalPensionInsurance: Option<int>,
    medicalCareInsurance: Option<int>)

  /** The eight income deductions of the full scenario. */
  datatype DeductionSummary = DeductionSummary(
    ideco: int, lifeInsurance: int, earthquakeInsurance: int, medicalExpense: int,
    donation: int, specialExpense: int, basicDeduction: int, socialInsurance: int)

  /** The deduction summary extended with the housing-loan tax credit. */
  datatype DeductionDetail = DeductionDetail(
    ideco: int, lifeInsurance: int, earthquakeInsurance: int, medicalExpense: int,
    donation: int, specialExpense: int, basicDeduction: int, socialInsurance: int,
    housingLoanTaxCredit: int)

  datatype TaxCalculationDetail = TaxCalculationDetail(
    salaryIncome: int, totalDeduction: int, taxableIncome: int, incomeTax: int, residentTax: int)

  /** `applicableTaxRatePercent` is the marginal income-tax rate in per cent (0.1 in the source is 10 here). */
  datatype RefundBreakdown = RefundBreakdown(
    beforeDeduction: TaxCalculationDetail,
    afterDeduction: TaxCalculationDetail,
    deductions: DeductionDetail,
    applicableTaxRatePercent: int)

  /**
   * The refund. The resident-tax part is `real` because the resident-tax credit
   * cap (7% of taxable income) is not rounded.
   */
  datatype RefundResult = RefundResult(
    totalRefund: real,
    incomeTaxRefund: int,
    residentTaxReduction: real,
    breakdown: RefundBreakdown)
}
