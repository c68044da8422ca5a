/** What the refund computation promises beyond the contracts of its functions. */
module RefundProperties {
  import opened Wrappers
  import opened Common
  import opened DomainTypes
  import opened SalaryDeduction
  import opened TaxRates
  import opened TaxCalculator
  import opened DeductionCalculator
  import opened RefundCalculator

  /** A scenario's income tax is the statutory progressive tax and its resident tax 10%, both rounded down. */
  predicate StatutoryTaxes(d: TaxCalculationDetail) {
    d.incomeTax == ProgressiveTaxHundredths(d.taxableIncome) / 100 &&
    d.residentTax == d.taxableIncome * ResidentTaxRatePercent / 100
  }

  /** A scenario computed from a salary income and a total deduction has the statutory taxes of its taxable income. */
  lemma DetailTaxesAreStatutory(salaryIncome: int, totalDeduction: int, d: TaxCalculationDetail)
    requires DetailFor(salaryIncome, totalDeduction) == Ok(d)
    ensures StatutoryTaxes(d)
  {
    IncomeTaxIsProgressive(d.taxableIncome);
  }

  /** Scenarios made of the computed steps have the statutory taxes of their taxable incomes. */
  lemma StagesAreStatutory(input: DeductionInput, s: Scenarios)
    requires ComputedStages(input, s)
    ensures StatutoryTaxes(s.beforeDeduction) && StatutoryTaxes(s.afterDeduction)
  {
    var salaryIncome := CalculateSalaryIncome(input.salary).value;
    var socialInsurance := CalculateSocialInsurance(input.salary).value;
    DetailTaxesAreStatutory(salaryIncome, BasicDeduction + socialInsurance, s.beforeDeduction);
    DetailTaxesAreStatutory(salaryIncome, TotalIncomeDeduction(s.deductions), s.afterDeduction);
  }

  /** Both scenarios of a successful scenario stage have the statutory taxes of their taxable incomes. */
  lemma ScenarioTaxesAreStatutory(input: DeductionInput)
    requires CalculateScenarios(input).Ok?
    ensures StatutoryTaxes(CalculateScenarios(input).value.beforeDeduction)
    ensures StatutoryTaxes(CalculateScenarios(input).value.afterDeduction)
  {
    StagesAreStatutory(input, CalculateScenarios(input).value);
  }

  /**
   * The refund's breakdown reports the statutory taxes of both scenarios, so each
   * refund part is the statutory baseline tax minus the credited full-scenario tax.
   */
  lemma RefundTaxesAreStatutory(input: DeductionInput)
    requires Calculate(input).Ok?
    ensures StatutoryTaxes(Calculate(input).value.breakdown.beforeDeduction)
    ensures StatutoryTaxes(Calculate(input).value.breakdown.afterDeduction)
  {
    ScenarioTaxesAreStatutory(input);
  }

  /** No credit leaves both taxes as they are; a credit lowers them by at most its amount in total. */
  lemma CreditLowersTaxes(after: TaxCalculationDetail, credit: int)
    requires after.incomeTax >= 0 && after.residentTax >= 0 && after.taxableIncome >= 0 && credit >= 0
    ensures var f0 := ApplyHousingLoanCredit(after, 0);
            f0.incomeTax == after.incomeTax && f0.residentTax == after.residentTax as real
    ensures var f := ApplyHousingLoanCredit(after, credit);
            (after.incomeTax - f.incomeTax) as real + (after.residentTax as real - f.residentTax) <= credit as real
  {
  }

  /** The income deductions do not depend on the housing loan. */
  lemma AllDeductionsIgnoreHousingLoan(input: DeductionInput, salaryIncome: int, salaryDeduction: int, socialInsurance: int)
    ensures CalculateAllDeductions(input.(housingLoan := None), salaryIncome, salaryDeduction, socialInsurance) ==
            CalculateAllDeductions(input, salaryIncome, salaryDeduction, socialInsurance)
  {
  }

  /** The housing loan changes neither scenario's taxable income. */
  lemma TaxableIncomesIgnoreHousingLoan(input: DeductionInput)
    requires input.salary >= 0
    ensures BaselineTaxableIncome(input.(housingLoan := None)) == BaselineTaxableIncome(input)
    ensures GroupAmountsValid(input) ==> FullTaxableIncome(input.(housingLoan := None)) == FullTaxableIncome(input)
  {
    var salaryIncome := CalculateSalaryIncome(input.salary).value;
    AllDeductionsIgnoreHousingLoan(input, salaryIncome, input.salary - salaryIncome,
                                   CalculateSocialInsurance(input.salary).value);
  }

  /** Without its housing loan, an input for which the computation succeeds still succeeds. */
  lemma DroppingHousingLoanKeepsSuccess(input: DeductionInput)
    requires Calculate(input).Ok?
    ensures Calculate(input.(housingLoan := None)).Ok?
  {
    CalculateSucceedsIff(input);
    CalculateSucceedsIff(input.(housingLoan := None));
    TaxableIncomesIgnoreHousingLoan(input);
  }

  /** A salary of 5,000,000 yen with no income-deduction group. */
  function ExampleInput(housingLoan: Option<HousingLoanInput>): DeductionInput {
    DeductionInput(5_000_000, None, None, None, None, None, None, housingLoan)
  }

  /**
   * Salary 5,000,000 yen: salary income 3,560,000, social insurance 750,000,
   * baseline taxable income 2,330,000, income tax 135,500, resident tax 233,000.
   */
  lemma BaselineScenarioExample()
    ensures CalculateSalaryIncome(5_000_000) == Ok(3_560_000)
    ensures CalculateSocialInsurance(5_000_000) == Ok(750_000)
    ensures CalculateWithMinimalDeductions(3_560_000, 750_000) ==
            Ok(TaxCalculationDetail(3_560_000, 1_230_000, 2_330_000, 135_500, 233_000))
  {
    SalaryIncomeIsStatutory(5_000_000);
    assert InTaxBracket(IncomeTaxRates[1], 2_330_000);
  }

  /**
   * An iDeCo payment of 276,000 yen on that salary lowers taxable income to
   * 2,054,000 and saves 27,600 yen of income tax and 27,600 yen of resident tax;
   * the marginal rate is 10%.
   */
  lemma IdecoScenario()
    ensures var r := Calculate(ExampleInput(None).(ideco := Some(IdecoInput(276_000))));
            r.Ok? && r.value.incomeTaxRefund == 27_600 && r.value.residentTaxReduction == 27_600.0 &&
            r.value.totalRefund == 55_200.0 && r.value.breakdown.afterDeduction.taxableIncome == 2_054_000 &&
            r.value.breakdown.afterDeduction.totalDeduction == 1_506_000 &&
            r.value.breakdown.applicableTaxRatePercent == 10
  {
    BaselineScenarioExample();
    var input := ExampleInput(None).(ideco := Some(IdecoInput(276_000)));
    assert CalculateAllDeductions(input, 3_560_000, 1_440_000, 750_000) ==
           Ok(DeductionSummary(276_000, 0, 0, 0, 0, 0, 480_000, 750_000));
    assert InTaxBracket(IncomeTaxRates[1], 2_054_000);
    assert CalculateScenarios(input) ==
           Ok(Scenarios(TaxCalculationDetail(3_560_000, 1_230_000, 2_330_000, 135_500, 233_000),
                        DeductionSummary(276_000, 0, 0, 0, 0, 0, 480_000, 750_000),
                        TaxCalculationDetail(3_560_000, 1_506_000, 2_054_000, 107_900, 205_400), 0));
  }

  /**
   * A 30,000,000 yen loan on certified new housing from 2024 gives a credit of
   * 210,000 yen: 135,500 against income tax, which it wipes out, and the remaining
   * 74,500 against resident tax, under its 136,500 cap.
   */
  lemma HousingLoanScenario()
    ensures var r := Calculate(ExampleInput(Some(HousingLoanInput(30_000_000, 2024, NewCertified))));
            r.Ok? && r.value.breakdown.deductions.housingLoanTaxCredit == 210_000 &&
            r.value.breakdown.beforeDeduction.taxableIncome == r.value.breakdown.afterDeduction.taxableIncome &&
            r.value.incomeTaxRefund == 135_500 && r.value.residentTaxReduction == 74_500.0 &&
            r.value.totalRefund == 210_000.0
  {
    BaselineScenarioExample();
    var input := ExampleInput(Some(HousingLoanInput(30_000_000, 2024, NewCertified)));
    assert HousingLoanCredit(input) == Ok(210_000);
    assert CalculateAllDeductions(input, 3_560_000, 1_440_000, 750_000) ==
           Ok(DeductionSummary(0, 0, 0, 0, 0, 0, 480_000, 750_000));
  }

  /**
   * An iDeCo payment of 380,500 yen brings the full scenario's taxable income to
   * 1,949,500 yen, inside the gap between the first two brackets, and the
   * computation fails.
   */
  lemma BracketGapScenario()
    ensures Calculate(ExampleInput(None).(ideco := Some(IdecoInput(380_500)))) == Err(BracketNotFound)
  {
    var input := ExampleInput(None).(ideco := Some(IdecoInput(380_500)));
    BaselineScenarioExample();
    GapExample();
    CalculateSucceedsIff(input);
  }
}
