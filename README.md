# Tax-refund engine: a Dafny model

This project models the calculation core of a Japanese tax-refund estimator. The estimator is a web app. It takes a salary earner's gross salary and up to seven optional deduction groups:

- iDeCo (individual-type defined-contribution pension) contributions;
- life insurance, under the new or the old regime;
- earthquake insurance;
- medical expenses;
- donations (hometown tax and other);
- special (commuting) expenses;
- a housing loan.

From these it estimates how much income tax and resident tax the deductions save.

The engine works in these steps:

1. It derives salary income from the statutory salary-income deduction bands.
2. It estimates social insurance at 15% of the salary.
3. It computes a *baseline* scenario, which takes only the basic deduction (480,000 yen) and the social-insurance estimate.
4. It computes a *full* scenario, which takes every income deduction as well.
5. It applies the housing-loan tax credit to the full scenario's taxes. The credit goes against income tax first. What is left over goes against resident tax, up to a cap of 7% of taxable income and at most 136,500 yen.
6. It reports the refund as the difference from the baseline.

The model also covers three things around the engine:

- the input schema's acceptance predicate;
- the input store, whose setters clear a group given 0 or no value;
- the calculation store, which holds a result, a loading flag and an error.

Model conventions:

- **Amounts.** They are `int` yen. Rates are integer ratios: per cent, or per mille for the 0.7% housing-loan rate. Dafny's `/` by a positive divisor is floor division, so `floor(x * rate)` is written exactly.
- **Real numbers.** `real` is used only where the source keeps a fraction:
  - the unrounded life-insurance tier value, which is floored afterwards;
  - the resident-tax credit cap of 7% of taxable income, which the source does not round;
  - the final resident tax, the resident-tax reduction and the total refund, which can therefore be fractional.
- **Errors.** Every `throw` of the source becomes an `Err` of a `Result`:
  - `InvalidArgument` for a negative amount;
  - `BracketNotFound` for an income that no table row covers;
  - `InvalidDeductionEntry` for a malformed salary band;
  - `UnknownResidenceYear` for a residence year from 2022 on that the housing-loan table lacks.
- **Preserved quirk: bracket gaps.** The income-tax brackets leave 999-yen gaps, for example 1,949,001 to 1,949,999. A taxable income inside a gap makes the income-tax lookup fail. The model keeps this behaviour, and `CalculateSucceedsIff` characterises exactly when the whole computation fails because of it. `BracketGapScenario` gives an input the schema accepts for which the computation fails: a 5,000,000 yen salary with a 380,500 yen iDeCo payment.
- **Preserved quirk: unrounded credit cap.** The resident-tax credit cap is not floored, as in the source.
- **The housing-loan table** is a function from residence year to a record with one limit per housing type. It is `None` for years outside 2022 to 2025. The source's record type also lists every type for every year, so its "missing housing type" error (`src/domain/services/DeductionCalculator.ts:310-313`) can never fire. The model therefore has no such branch.
- **Accepted input beyond the table.** The input schema accepts residence years up to the current year. Once the current year is past 2025, an accepted loan from that year has no limits in the table and the credit calculation fails; `AcceptedLoanBeyondTable` shows this. `AcceptedInputIsValid` proves that while the current year is at most 2025, no accepted input with integer amounts reaches an error other than a bracket gap. The schema does not require integer amounts; see "Schema typing" under "## Left out".

Files:

- `wrappers.dfy` and `common.dfy` hold the `Result`/`Option` types and min/max helpers.
- `domain_types.dfy` holds the records.
- One file per constants table.
- One file per calculator class.
- `refund_properties.dfy` holds properties and worked examples about the whole computation.
- One file each for the validator and the two stores.

## Model

| member | source | states |
|---|---|---|
| SalaryDeduction.SalaryTableShape | src/constants/salaryDeduction.ts:10-55 | six bands; the first starts at 0 and the last is open; each band's `min` is the previous `max` + 1; every band has exactly one of a fixed deduction or a (rate, adjustment) pair; the social-insurance rate is 15% |
| SalaryDeduction.SalaryBandsPartition | src/constants/salaryDeduction.ts:11-44 | every non-negative salary lies in exactly one band |
| SalaryDeduction.StatutorySalaryDeductionMonotone | src/constants/salaryDeduction.ts:11-44 | the band-by-band deduction never falls as the salary rises, and rises by at most the salary's rise |
| SalaryDeduction.StatutorySalaryDeductionContinuous | src/constants/salaryDeduction.ts:14-44 | at every band edge the floored deduction is the same on both sides (1,625,000 and 1,625,001 both give 550,000, and so on) |
| TaxRates.TaxRateTableShape | src/constants/taxRates.ts:10-72 | seven brackets; the first starts at 0 with deduction 0 and the last is open; each `min` is the previous `max` + 1,000; rates are 5, 10, 20, 23, 33, 40, 45%; resident tax 10%, basic deduction 480,000 |
| TaxRates.TaxBracketCoverage | src/constants/taxRates.ts:10-53 | a non-negative income lies in some bracket exactly when it is not in a gap, and never in two |
| TaxRates.ThousandsAreCovered | src/constants/taxRates.ts:10-53 | no multiple of 1,000 falls in a gap |
| TaxRates.GapExample | src/constants/taxRates.ts:14-17 | 1,949,500 lies in a gap and in no bracket |
| TaxRates.ProgressiveTaxMonotone | src/constants/taxRates.ts:10-53 | the statutory slice-by-slice progressive tax never falls as income rises |
| DeductionLimits.DeductionLimitsShape | src/constants/deductionLimits.ts:8-59 | both life-insurance tables have four tiers with strictly ascending finite boundaries and an open last tier (20,000/40,000/80,000 new; 25,000/50,000/100,000 old); caps are 120,000 and 100,000; earthquake cap 50,000; medical threshold 100,000, cap 2,000,000, rate 5%; donation self-burden 2,000 and income cap 40% |
| HousingLoanTable.HousingLoanLimits | src/constants/housingLoanLimits.ts:11-100 | the year table, looked up per housing type through `LimitFor`: a record exists exactly for 2022 to 2025, and every limit in it is non-negative |
| HousingLoanTable.HousingLoanLimitsShape | src/constants/housingLoanLimits.ts:11-107 | the table has exactly the years 2022 to 2025; "new-other" has limit 30,000,000 in 2022 and 0 in 2023 to 2025; within a year certified ≥ ZEH ≥ energy-saving; no limit is negative; the rate is 7 per mille |
| TaxCalculator.FindSalaryBandFrom | src/domain/services/TaxCalculator.ts:30-32 | the result is the first band from the start index containing the salary, or none contains it |
| TaxCalculator.FindSalaryBand | src/domain/services/TaxCalculator.ts:30-32 | a found band contains the salary; no band contains it when none is found |
| TaxCalculator.FindTaxBracketFrom | src/domain/services/TaxCalculator.ts:90 | the result is the first bracket from the start index containing the income, or none contains it |
| TaxCalculator.FindTaxBracket | src/domain/services/TaxCalculator.ts:90 | a found bracket contains the income; no bracket contains it when none is found |
| TaxCalculator.CalculateSalaryIncome | src/domain/services/TaxCalculator.ts:24-51 | succeeds exactly for a non-negative salary, fails otherwise with InvalidArgument; the result is between 0 and the salary |
| TaxCalculator.SalaryIncomeIsStatutory | src/domain/services/TaxCalculator.ts:24-51 | salary income is `max(0, salary − deduction)` with the statutory band-by-band deduction floored |
| TaxCalculator.SalaryIncomeMonotone | src/domain/services/TaxCalculator.ts:24-51 | a higher salary never gives a lower salary income |
| TaxCalculator.CalculateTaxableIncome | src/domain/services/TaxCalculator.ts:62-68 | fails exactly when either argument is negative; otherwise `max(0, salaryIncome − totalDeduction)`, between 0 and the salary income |
| TaxCalculator.CalculateIncomeTax | src/domain/services/TaxCalculator.ts:80-100 | a negative income is InvalidArgument; 0 gives 0; every result is non-negative |
| TaxCalculator.IncomeTaxDefinedIff | src/domain/services/TaxCalculator.ts:80-100 | income tax is computed exactly for a non-negative income outside the bracket gaps; an income in a gap gives BracketNotFound |
| TaxCalculator.ProgressiveInBracket | src/constants/taxRates.ts:10-53 | within bracket i, the slice-by-slice progressive tax equals rate·x − 100·deduction in hundredths of a yen (the quick-calculation deductions are right) |
| TaxCalculator.IncomeTaxIsProgressive | src/domain/services/TaxCalculator.ts:80-100 | the table-driven income tax is the statutory progressive tax, floored |
| TaxCalculator.IncomeTaxMonotone | src/domain/services/TaxCalculator.ts:80-100 | a higher taxable income never gives a lower income tax |
| TaxCalculator.CalculateResidentTax | src/domain/services/TaxCalculator.ts:114-121 | fails exactly for a negative income; the result is 10% of the income, floored |
| TaxCalculator.CalculateSocialInsurance | src/domain/services/TaxCalculator.ts:133-139 | fails exactly for a negative salary; the result is 15% of the salary, floored |
| TaxCalculator.GetApplicableTaxRate | src/domain/services/TaxCalculator.ts:147-163 | a negative income is InvalidArgument; 0 gives rate 0 |
| TaxCalculator.ApplicableRateMatchesIncomeTax | src/domain/services/TaxCalculator.ts:147-163 | the marginal rate fails exactly when the income tax fails, with the same error; otherwise it is the rate of the bracket the income tax was computed with |
| DeductionCalculator.CalculateIdecoDeduction | src/domain/services/DeductionCalculator.ts:33-40 | fails exactly for a negative payment; otherwise the payment in full |
| DeductionCalculator.LifeInsuranceByThreshold | src/domain/services/DeductionCalculator.ts:122-155 | tier 0 gives the payment itself; any index past tier 2 gives the flat 40,000 (new) or 50,000 (old); a non-negative payment gives a non-negative value; the middle tiers are pinned by `NewSystemTiers` and `OldSystemTiers` |
| DeductionCalculator.TierIndexFrom | src/domain/services/DeductionCalculator.ts:101-111 | the index is the first tier from the start index whose boundary covers the payment; when no tier covers it, the last index is the fallback |
| DeductionCalculator.TierIndex | src/domain/services/DeductionCalculator.ts:101-111 | the first tier whose boundary covers the payment, or the last tier when none does |
| DeductionCalculator.SingleLifeInsurance | src/domain/services/DeductionCalculator.ts:85-112 | fails exactly for a negative payment, with InvalidArgument; otherwise non-negative |
| DeductionCalculator.CalculateSingleLifeInsurance | src/domain/services/DeductionCalculator.ts:85-112 | the indexed scan with early return computes the tiered per-category deduction |
| DeductionCalculator.NewSystemTiers | src/domain/services/DeductionCalculator.ts:101-141 | new regime per category: payment up to 20,000; payment/2 + 10,000 up to 40,000; payment/4 + 20,000 up to 80,000; 40,000 above (floored) |
| DeductionCalculator.OldSystemTiers | src/domain/services/DeductionCalculator.ts:101-155 | old regime per category: payment up to 25,000; payment/2 + 12,500 up to 50,000; payment/4 + 25,000 up to 100,000; 50,000 above (floored) |
| DeductionCalculator.SingleLifeInsuranceBounds | src/domain/services/DeductionCalculator.ts:85-155 | per category the deduction is positive, at most the payment and the 40,000 (new) or 50,000 (old) maximum, and never falls as the payment rises |
| DeductionCalculator.Contribution | src/domain/services/DeductionCalculator.ts:60-72 | an absent, zero or negative category contributes nothing; any contribution is non-negative |
| DeductionCalculator.LifeInsuranceDeduction | src/domain/services/DeductionCalculator.ts:53-76 | the total is between 0 and the regime's cap of 120,000 or 100,000 |
| DeductionCalculator.CalculateLifeInsuranceDeduction | src/domain/services/DeductionCalculator.ts:53-76 | the accumulating method computes the capped sum of the categories |
| DeductionCalculator.OldSystemIgnoresMedicalCare | src/domain/services/DeductionCalculator.ts:69-72 | under the old regime the medical-care payment changes nothing |
| DeductionCalculator.LifeInsuranceSumOfCategories | src/domain/services/DeductionCalculator.ts:53-76 | the deduction is the categories' sum capped at 120,000 (new) or 100,000 (old) |
| DeductionCalculator.CalculateEarthquakeInsuranceDeduction | src/domain/services/DeductionCalculator.ts:168-174 | fails exactly for a negative payment; otherwise the payment or 50,000, whichever is less |
| DeductionCalculator.MedicalExpenseFloor | src/domain/services/DeductionCalculator.ts:199 | the floor is 5% of income rounded down or 100,000, whichever is less; for non-negative income it lies in [0, 100,000] |
| DeductionCalculator.CalculateMedicalExpenseDeduction | src/domain/services/DeductionCalculator.ts:187-206 | fails exactly for a negative expense or income; otherwise the excess over `min(100,000, floor(5% of income))`, clamped to [0, 2,000,000]; 0 when there were no expenses |
| DeductionCalculator.MedicalExpenseMonotone | src/domain/services/DeductionCalculator.ts:187-206 | more expenses never lower the deduction; more income never raises it |
| DeductionCalculator.CalculateDonationDeduction | src/domain/services/DeductionCalculator.ts:219-234 | fails exactly for a negative donation or income; 0 up to the 2,000 self-burden; above it, the lesser of the excess and 40% of income floored |
| DeductionCalculator.CalculateSpecialExpenseDeduction | src/domain/services/DeductionCalculator.ts:247-259 | fails exactly for a negative argument; 0 exactly when the expense is at most half the salary deduction (floored); otherwise the excess over that threshold |
| DeductionCalculator.CalculateHousingLoanTaxCredit | src/domain/services/DeductionCalculator.ts:274-325 | any credit is non-negative |
| DeductionCalculator.HousingLoanCreditValue | src/domain/services/DeductionCalculator.ts:283-324 | up to 2021 the credit is `min(floor(1% of balance), 500,000 certified / 400,000 otherwise)`; from 2022 it is `floor(0.7% of balance)` while the balance is within the (year, type) limit, and `floor(0.7% of limit)` once the balance reaches it |
| DeductionCalculator.HousingLoanCreditErrors | src/domain/services/DeductionCalculator.ts:279-308 | the credit fails with InvalidArgument exactly for a negative balance, and with UnknownResidenceYear exactly for a positive balance, a year after 2021 and a year the table lacks; there is no other error |
| DeductionCalculator.HousingLoanCreditBounds | src/domain/services/DeductionCalculator.ts:283-324 | the credit is at most the (year, type) maximum and at most the balance times 1% (to 2021) or 0.7% (from 2022); it never falls as the balance rises |
| DeductionCalculator.LegacyNonCertifiedTypesAgree | src/domain/services/DeductionCalculator.ts:288-302 | up to 2021 every type other than certified housing gets the same credit |
| DeductionCalculator.NewOtherEligibility | src/domain/services/DeductionCalculator.ts:305-324 | "new-other" housing gets 0 from 2023 to 2025, and a positive credit in 2022 for a balance of at least 1,000 |
| RefundCalculator.DetailFor | src/domain/services/RefundCalculator.ts:99-117 | a scenario succeeds exactly when both arguments are non-negative and its taxable income has an income tax; otherwise InvalidArgument for a negative argument, else BracketNotFound; it keeps salary income and total deduction; taxable income is `max(0, salaryIncome − totalDeduction)`; resident tax is 10% of it, floored |
| RefundCalculator.CalculateWithMinimalDeductions | src/domain/services/RefundCalculator.ts:99-117 | the baseline's total deduction is 480,000 + social insurance, and its taxable income is `max(0, salaryIncome − 480,000 − socialInsurance)` |
| RefundCalculator.CalculateAllDeductions | src/domain/services/RefundCalculator.ts:122-186 | with a non-negative salary income and salary deduction it succeeds exactly when every amount the source checks is non-negative (the donation as the sum of its two parts), failing only with InvalidArgument; basic deduction 480,000 and social insurance passed through; all entries non-negative; iDeCo deducted in full; an absent group contributes 0; a present group's entry is its calculator's result: life insurance by its regime, earthquake on its payment, medical and donation (furusato + other) against the salary income, commuting against the salary deduction |
| RefundCalculator.CalculateWithDeductions | src/domain/services/RefundCalculator.ts:191-218 | the full scenario's total deduction is the sum of the eight entries, and its taxable income is `max(0, salaryIncome − that sum)` |
| RefundCalculator.HousingLoanCredit | src/domain/services/RefundCalculator.ts:57-63 | no housing loan gives credit 0; any credit is non-negative |
| RefundCalculator.ConvertToDeductionDetail | src/domain/services/RefundCalculator.ts:225-242 | succeeds exactly when the credit does; keeps the eight income deductions and adds the credit |
| RefundCalculator.ApplyHousingLoanCredit | src/domain/services/RefundCalculator.ts:65-74 | final income tax is in [0, income tax], and is income tax − credit when the credit fits; when the credit is at least the income tax, income tax goes to 0 and the resident-tax credit is `min(credit − incomeTax, cap)`; the resident-tax credit is in [0, min(7% of taxable income, 136,500)]; final resident tax is `max(0, residentTax − residentCredit)`; the two reductions together are `min(credit, incomeTax + cap)` |
| RefundCalculator.ScenarioTaxesDefined | src/domain/services/TaxCalculator.ts:90-94 | each scenario's taxable income has an income tax exactly when it lies outside the bracket gaps |
| RefundCalculator.CalculateScenarios | src/domain/services/RefundCalculator.ts:32-63 | a negative salary gives InvalidArgument; any validation failure makes it fail; on success each part is what its step computes from the input (`ComputedStages`: the baseline from the salary income and the social-insurance estimate, every group's deduction, the full scenario from those deductions, the credit); there is no validation failure and the taxable incomes are the baseline's and the full scenario's; the credit is the input's credit; both scenarios share the statutory salary income; baseline total = 480,000 + 15% social insurance; all deductions non-negative; full total = sum of entries ≥ baseline total; full taxable income and both full taxes ≤ the baseline's; with no group the scenarios coincide |
| RefundCalculator.ScenariosFailure | src/domain/services/RefundCalculator.ts:32-63 | without a validation failure the scenario stage succeeds exactly when both taxable incomes have an income tax, and otherwise fails with BracketNotFound |
| RefundCalculator.Calculate | src/domain/services/RefundCalculator.ts:32-94 | it fails exactly when the scenario stage fails, with the same error; on success the taxable incomes are the baseline's and the full scenario's; the reported credit is the one applied; both refund parts are non-negative and at most the baseline tax they come from; the total is their sum and at most the tax the deductions save plus the credit; without a housing loan each part is exactly the tax saved; with no group the scenarios coincide and the refund is 0; the breakdown holds the scenario stage's two details, its deductions extended with the credit and the marginal rate of the full taxable income; the income-tax refund is the baseline income tax minus the credited income tax, and the resident-tax reduction the baseline resident tax minus the credited resident tax |
| RefundCalculator.CalculateSucceedsIff | src/domain/services/RefundCalculator.ts:32-94 | a negative salary, a negative checked group amount or a failing credit makes the computation fail; otherwise it succeeds exactly when neither taxable income is in a bracket gap, and else fails with BracketNotFound |
| RefundProperties.DetailTaxesAreStatutory | src/domain/services/RefundCalculator.ts:105-108 | a scenario computed from a salary income and a total deduction has as income tax the statutory progressive tax of its taxable income, floored, and as resident tax 10% of it, floored |
| RefundCalculator.ComputedStagesFacts | src/domain/services/RefundCalculator.ts:32-63 | scenarios made of the computed steps pass validation, have the baseline's and the full scenario's taxable incomes, the statutory salary income in both, a baseline total of 480,000 + the social-insurance estimate, non-negative deductions, a full total that is the sum of the entries and at least the baseline's, full taxable income and taxes at most the baseline's, and equal scenarios when no group is present |
| RefundProperties.StagesAreStatutory | src/domain/services/RefundCalculator.ts:99-117 | scenarios made of the computed steps have the statutory taxes in both the baseline and the full scenario |
| RefundProperties.ScenarioTaxesAreStatutory | src/domain/services/RefundCalculator.ts:32-54 | both scenarios of every successful scenario stage have the statutory taxes of their taxable incomes |
| RefundProperties.RefundTaxesAreStatutory | src/domain/services/RefundCalculator.ts:83-93 | the breakdown of every successful refund reports the statutory taxes for both scenarios |
| RefundProperties.CreditLowersTaxes | src/domain/services/RefundCalculator.ts:65-74 | a zero credit leaves both taxes unchanged; any credit lowers them by at most its amount in total |
| RefundProperties.AllDeductionsIgnoreHousingLoan | src/domain/services/RefundCalculator.ts:122-186 | the income deductions do not depend on the housing loan |
| RefundProperties.TaxableIncomesIgnoreHousingLoan | src/domain/services/RefundCalculator.ts:40-54 | dropping the housing loan changes neither scenario's taxable income |
| RefundProperties.DroppingHousingLoanKeepsSuccess | src/domain/services/RefundCalculator.ts:57-63 | an input that succeeds still succeeds without its housing loan |
| RefundProperties.BaselineScenarioExample | tests/domain/services/RefundCalculator.test.ts:19-24 | salary 5,000,000 gives salary income 3,560,000, social insurance 750,000, baseline taxable income 2,330,000, income tax 135,500 and resident tax 233,000 |
| RefundProperties.IdecoScenario | tests/domain/services/RefundCalculator.test.ts:9-34 | adding iDeCo 276,000 gives full taxable income 2,054,000 and total deduction 1,506,000; refunds are 27,600 + 27,600 = 55,200; marginal rate 10% |
| RefundProperties.HousingLoanScenario | tests/domain/services/RefundCalculator.test.ts:128-165 | a 30,000,000 loan from 2024 on certified new housing gives credit 210,000; taxable incomes are unchanged; refunds are 135,500 + 74,500 = 210,000 |
| RefundProperties.BracketGapScenario | src/domain/services/TaxCalculator.ts:90-94 | iDeCo 380,500 on salary 5,000,000 puts taxable income at 1,949,500, in a gap, and the computation fails with BracketNotFound |
| InputValidator.IsAcceptedInput | src/application/validators/inputValidator.ts:10-105 | the schema's range checks on the salary and on each present group; an accepted input has a positive salary and passes every group-amount check of the deduction calculation |
| InputValidator.AcceptedInputIsValid | src/application/validators/inputValidator.ts:93-105 | while the current year is at most 2025, an accepted input with integer amounts (all amounts are integers in the model) has no validation failure, and its computation succeeds exactly when neither taxable income is in a gap |
| InputValidator.SalaryOnlyIsAccepted | src/application/validators/inputValidator.ts:93-105 | a salary in [1,000,000, 99,990,000] with every group absent is accepted |
| InputValidator.AcceptedInputInBracketGap | src/application/validators/inputValidator.ts:10-15 | the schema accepts the bracket-gap input above, whose computation fails |
| InputValidator.AcceptedLoanBeyondTable | src/application/validators/inputValidator.ts:76-90 | with current year 2026 the schema accepts a 2026 loan, for which the credit fails with UnknownResidenceYear |
| InputState.IdecoGroup | src/application/stores/inputStore.ts:48-54 | the group is stored exactly when the amount is present and non-zero, with that amount |
| InputState.EarthquakeInsuranceGroup | src/application/stores/inputStore.ts:80-86 | the group is stored exactly when the amount is present and non-zero, with that amount |
| InputState.MedicalExpenseGroup | src/application/stores/inputStore.ts:91-97 | the group is stored exactly when the amount is present and non-zero, with that amount |
| InputState.SpecialExpenseGroup | src/application/stores/inputStore.ts:113-119 | the group is stored exactly when the amount is present and non-zero, with that amount |
| InputState.LifeInsuranceGroup | src/application/stores/inputStore.ts:59-75 | the group is cleared exactly when all three payments are missing or 0; otherwise all four fields are stored as given |
| InputState.DonationGroup | src/application/stores/inputStore.ts:102-108 | the group is cleared exactly when both amounts are missing or 0; otherwise it is stored with a missing amount as 0 |
| InputState.HousingLoanGroup | src/application/stores/inputStore.ts:124-138 | the group is cleared exactly when the balance is missing or 0, whatever the year and type; otherwise it is stored as given |
| InputState.DefaultInput | src/application/stores/inputStore.ts:25-36 | the default input has salary 5,000,000 and no empty group |
| InputState.InputStore.constructor | src/application/stores/inputStore.ts:12-17 | the initial store holds the default input |
| InputState.InputStore.ResetInput | src/application/stores/inputStore.ts:25-36 | restores salary 5,000,000 with all seven groups absent |
| InputState.InputStore.SetSalary | src/application/stores/inputStore.ts:41-43 | changes only the salary |
| InputState.InputStore.SetIdeco | src/application/stores/inputStore.ts:48-54 | changes only the iDeCo group, clearing it for 0 or no value; keeps the store free of empty groups |
| InputState.InputStore.SetLifeInsurance | src/application/stores/inputStore.ts:59-75 | changes only the life-insurance group, as described for `LifeInsuranceGroup`; keeps the store free of empty groups |
| InputState.InputStore.SetEarthquakeInsurance | src/application/stores/inputStore.ts:80-86 | changes only the earthquake group, clearing it for 0 or no value |
| InputState.InputStore.SetMedicalExpense | src/application/stores/inputStore.ts:91-97 | changes only the medical group, clearing it for 0 or no value |
| InputState.InputStore.SetDonation | src/application/stores/inputStore.ts:102-108 | changes only the donation group, as described for `DonationGroup` |
| InputState.InputStore.SetSpecialExpense | src/application/stores/inputStore.ts:113-119 | changes only the special-expense group, clearing it for 0 or no value |
| InputState.InputStore.SetHousingLoan | src/application/stores/inputStore.ts:124-138 | changes only the housing-loan group, clearing it whenever the balance is 0 or missing |
| CalculationState.CalculationStore.constructor | src/application/stores/calculationStore.ts:20-27 | no result, not loading, no error |
| CalculationState.CalculationStore.StartCalculation | src/application/stores/calculationStore.ts:32-37 | from any state: loading on, error cleared, result kept; afterwards never both a result and an error |
| CalculationState.CalculationStore.SetCalculationResult | src/application/stores/calculationStore.ts:42-48 | stores the result, loading off, error cleared |
| CalculationState.CalculationStore.SetCalculationError | src/application/stores/calculationStore.ts:53-59 | clears the result, loading off, stores the message |
| CalculationState.CalculationStore.ClearCalculationResult | src/application/stores/calculationStore.ts:64-66 | back to the initial state |

## Left out

- **Floating point.** IEEE-754 binary floating point is not modelled. Every rate is an exact integer ratio; the unrounded quantities are exact `real`s. Where the source's floating-point product could round differently from the exact value, the model follows the exact value.
- **Error messages.** The source throws `Error` with Japanese messages. The model keeps only the error kind.
- **The missing-housing-type branch** (`src/domain/services/DeductionCalculator.ts:310-313`). The table's type gives every year a limit for every housing type, so it cannot fire.
- **`HousingLoanLimit.years`.** No calculation reads it.
- **Lookups.** `Array.find` over the salary bands and the tax brackets is a recursive first-match search. The model keeps both of the salary-income calculation's error branches: "no band found" and "band without a method". `SalaryBandsPartition` and `SalaryTableShape` show that neither can be reached for an integer salary. For a fractional salary the first can be: see "Schema typing".
- **Schema typing.** Zod's type checks for missing fields, non-numbers, NaN and non-integer years are not modelled; the model's amounts and years are integers by type. Only the range checks are. The schema does not require integer amounts (`src/application/validators/inputValidator.ts:94-97` has no `.int()` on the salary, unlike the residence year at line 83), and the form parses amounts with `parseFloat`. Fractional amounts are therefore accepted but not modelled. For them the salary bands leave gaps (a salary of 1,625,000.5 yen lies between two bands, `src/constants/salaryDeduction.ts:13,17`), so the band lookup can throw "no band found" (`src/domain/services/TaxCalculator.ts:30-36`), and every fractional taxable income between two income-tax brackets falls in a gap. `AcceptedInputIsValid` and the unreachability results above hold for integer amounts only. The current year, which the schema reads from the clock, is a parameter.
- AcceptedInputIsValid: states its result for integer amounts only, because the model's amounts are integers; the schema also accepts fractional amounts, for which the source can throw "no band found" (see "Schema typing").
- **Validator callers.** The refund computation does not call the validator. The hooks that validate input and then call the engine are not part of this model. `AcceptedInputIsValid` relates the two directly.
- **Store reactivity.** The input store's reactive framework, its debounced localStorage auto-save and `saveInputNow` are I/O and are not modelled. The stores are classes whose methods overwrite their fields.
- **Other parts of the app.** The theme store, UI components, formatting, persistence (localStorage, IndexedDB) and the reactive hooks are not part of this model.
- **`CalculateHousingLoanTaxCredit`**: its own contract only says the credit is non-negative. Its value is stated by `HousingLoanCreditValue`. Its error cases and bounds are stated by `HousingLoanCreditErrors`, `HousingLoanCreditBounds`, `LegacyNonCertifiedTypesAgree` and `NewOtherEligibility`. Keeping these statements in lemmas keeps the function's own proof small.
- **`CalculateIncomeTax` and `GetApplicableTaxRate`**: their own contracts cover only negative and zero income. Gap failures, the progressive formula and the shared bracket are stated by `IncomeTaxDefinedIff`, `IncomeTaxIsProgressive` and `ApplicableRateMatchesIncomeTax`.
