/**
 * Salary income, taxable income, income tax, resident tax, social insurance and
 * the marginal rate. Every operation rejects a negative argument.
 */
module TaxCalculator {
  import opened Wrappers
  import opened Common
  import opened DomainTypes
  import opened SalaryDeduction
  import opened TaxRates

  /** The index of the first salary band from `from` on that contains `x`, as `Array.prototype.find` scans. */
  function FindSalaryBandFrom(x: int, from: nat): (r: Option<nat>)
    requires from <= |SalaryDeductionTable|
    ensures r.Some? ==> from <= r.value < |SalaryDeductionTable| && InSalaryBand(SalaryDeductionTable[r.value], x)
    ensures r.Some? ==> forall j {:trigger InSalaryBand(SalaryDeductionTable[j], x)} :: from <= j < r.value ==> !InSalaryBand(SalaryDeductionTable[j], x)
    ensures r.None? ==> forall j {:trigger InSalaryBand(SalaryDeductionTable[j], x)} :: from <= j < |SalaryDeductionTable| ==> !InSalaryBand(SalaryDeductionTable[j], x)
    decreases |SalaryDeductionTable| - from
  {
    if from == |SalaryDeductionTable| then None
    else if InSalaryBand(SalaryDeductionTable[from], x) then Some(from)
    else FindSalaryBandFrom(x, from + 1)
  }

  /** The index of the first salary band containing `x`. */
  function FindSalaryBand(x: int): (r: Option<nat>)
    ensures r.Some? ==> r.value < |SalaryDeductionTable| && InSalaryBand(SalaryDeductionTable[r.value], x)
    ensures r.None? ==> forall j {:trigger InSalaryBand(SalaryDeductionTable[j], x)} :: 0 <= j < |SalaryDeductionTable| ==> !InSalaryBand(SalaryDeductionTable[j], x)
  {
    FindSalaryBandFrom(x, 0)
  }

  /** The index of the first income-tax bracket from `from` on that contains `x`. */
  function FindTaxBracketFrom(x: int, from: nat): (r: Option<nat>)
    requires from <= |IncomeTaxRates|
    ensures r.Some? ==> from <= r.value < |IncomeTaxRates| && InTaxBracket(IncomeTaxRates[r.value], x)
    ensures r.Some? ==> forall j {:trigger InTaxBracket(IncomeTaxRates[j], x)} :: from <= j < r.value ==> !InTaxBracket(IncomeTaxRates[j], x)
    ensures r.None? ==> forall j {:trigger InTaxBracket(IncomeTaxRates[j], x)} :: from <= j < |IncomeTaxRates| ==> !InTaxBracket(IncomeTaxRates[j], x)
    decreases |IncomeTaxRates| - from
  {
    if from == |IncomeTaxRates| then None
    else if InTaxBracket(IncomeTaxRates[from], x) then Some(from)
    else FindTaxBracketFrom(x, from + 1)
  }

  /** The index of the first income-tax bracket containing `x`. */
  function FindTaxBracket(x: int): (r: Option<nat>)
    ensures r.Some? ==> r.value < |IncomeTaxRates| && InTaxBracket(IncomeTaxRates[r.value], x)
    ensures r.None? ==> forall i {:trigger InTaxBracket(IncomeTaxRates[i], x)} :: 0 <= i < |IncomeTaxRates| ==> !InTaxBracket(IncomeTaxRates[i], x)
  {
    FindTaxBracketFrom(x, 0)
  }

  /** Gross salary minus the salary-income deduction of its band, floored at 0. */
  function CalculateSalaryIncome(salaryRevenue: int): (r: Result<int>)
    ensures r.Ok? <==> salaryRevenue >= 0
    ensures r.Err? ==> r.error == InvalidArgument
    ensures r.Ok? ==> 0 <= r.value <= salaryRevenue
  {
    if salaryRevenue < 0 then Err(InvalidArgument)
    else
      SalaryBandsPartition(salaryRevenue);
      SalaryTableShape();
      match FindSalaryBand(salaryRevenue)
      case None => Err(BracketNotFound)
      case Some(i) =>
        var entry := SalaryDeductionTable[i];
        if entry.deduction.Some? then
          Ok(Max(0, salaryRevenue - entry.deduction.value))
        else if entry.ratePercent.Some? && entry.adjustment.Some? then
          // floor(salary * rate + adjustment), the adjustment being whole yen
          var deduction := salaryRevenue * entry.ratePercent.value / 100 + entry.adjustment.value;
          Ok(Max(0, salaryRevenue - deduction))
        else
          Err(InvalidDeductionEntry)
  }

  /** Salary income agrees with the statutory band-by-band deduction. */
  lemma SalaryIncomeIsStatutory(x: int)
    requires x >= 0
    ensures CalculateSalaryIncome(x) == Ok(Max(0, x - StatutorySalaryDeduction(x)))
  {
    SalaryBandsPartition(x);
    var i := FindSalaryBand(x).value;
    var t := SalaryDeductionTable;
    assert InSalaryBand(t[i], x);
    if x <= 1_625_000 { assert i == 0; }
    else if x <= 1_800_000 { assert i == 1; }
    else if x <= 3_600_000 { assert i == 2; }
    else if x <= 6_600_000 { assert i == 3; }
    else if x <= 8_500_000 { assert i == 4; }
    else { assert i == 5; }
  }

  /** A higher salary never yields a lower salary income. */
  lemma SalaryIncomeMonotone(x: int, y: int)
    requires 0 <= x <= y
    ensures CalculateSalaryIncome(x).value <= CalculateSalaryIncome(y).value
  {
    SalaryIncomeIsStatutory(x);
    SalaryIncomeIsStatutory(y);
    StatutorySalaryDeductionMonotone(x, y);
  }

  /** Salary income minus all income deductions, floored at 0. */
  function CalculateTaxableIncome(salaryIncome: int, totalDeduction: int): (r: Result<int>)
    ensures r.Ok? <==> salaryIncome >= 0 && totalDeduction >= 0
    ensures r.Err? ==> r.error == InvalidArgument
    ensures r.Ok? ==> 0 <= r.value <= salaryIncome && r.value >= salaryIncome - totalDeduction
    ensures r.Ok? ==> r.value == 0 || r.value == salaryIncome - totalDeduction
  {
    if salaryIncome < 0 || totalDeduction < 0 then Err(InvalidArgument)
    else Ok(Max(0, salaryIncome - totalDeduction))
  }

  /** Progressive income tax by the quick-calculation table; fails when the income is in a bracket gap. */
  function CalculateIncomeTax(taxableIncome: int): (r: Result<int>)
    ensures taxableIncome < 0 ==> r == Err(InvalidArgument)
    ensures r.Ok? ==> r.value >= 0
    ensures taxableIncome == 0 ==> r == Ok(0)
  {
    if taxableIncome < 0 then Err(InvalidArgument)
    else if taxableIncome == 0 then Ok(0)
    else
      match FindTaxBracket(taxableIncome)
      case None => Err(BracketNotFound)
      case Some(i) =>
        var entry := IncomeTaxRates[i];
        // floor(income * rate - deduction), the deduction being whole yen
        Ok(Max(0, taxableIncome * entry.ratePercent / 100 - entry.deduction))
  }

  /** Income tax is computed exactly when the income is non-negative and not in a gap between brackets. */
  lemma IncomeTaxDefinedIff(x: int)
    ensures CalculateIncomeTax(x).Ok? <==> x >= 0 && !InBracketGap(x)
    ensures x >= 0 && InBracketGap(x) ==> CalculateIncomeTax(x) == Err(BracketNotFound)
  {
    if x > 0 {
      TaxBracketCoverage(x);
    } else if x == 0 {
      assert InTaxBracket(IncomeTaxRates[0], 0);
      TaxBracketCoverage(0);
    }
  }

  /** Within each bracket the progressive sum is `rate * x - 100 * deduction` (hundredths of a yen). */
  lemma ProgressiveInBracket(x: int, i: nat)
    requires i < |IncomeTaxRates| && InTaxBracket(IncomeTaxRates[i], x)
    ensures ProgressiveTaxHundredths(x) == IncomeTaxRates[i].ratePercent * x - 100 * IncomeTaxRates[i].deduction
  {
    var s1, s2, s3 := Slice(x, 0, 1_950_000), Slice(x, 1_950_000, 3_300_000), Slice(x, 3_300_000, 6_950_000);
    var s4, s5, s6 := Slice(x, 6_950_000, 9_000_000), Slice(x, 9_000_000, 18_000_000), Slice(x, 18_000_000, 40_000_000);
    var s7 := Max(0, x - 40_000_000);
    if i == 0 {
      assert s1 == x && s2 == 0 && s3 == 0 && s4 == 0 && s5 == 0 && s6 == 0 && s7 == 0;
    } else if i == 1 {
      assert s1 == 1_950_000 && s2 == x - 1_950_000 && s3 == 0 && s4 == 0 && s5 == 0 && s6 == 0 && s7 == 0;
    } else if i == 2 {
      assert s1 == 1_950_000 && s2 == 1_350_000 && s3 == x - 3_300_000 && s4 == 0 && s5 == 0 && s6 == 0 && s7 == 0;
    } else if i == 3 {
      assert s1 == 1_950_000 && s2 == 1_350_000 && s3 == 3_650_000 && s4 == x - 6_950_000;
      assert s5 == 0 && s6 == 0 && s7 == 0;
    } else if i == 4 {
      assert s1 == 1_950_000 && s2 == 1_350_000 && s3 == 3_650_000 && s4 == 2_050_000;
      assert s5 == x - 9_000_000 && s6 == 0 && s7 == 0;
    } else if i == 5 {
      assert s1 == 1_950_000 && s2 == 1_350_000 && s3 == 3_650_000 && s4 == 2_050_000;
      assert s5 == 9_000_000 && s6 == x - 18_000_000 && s7 == 0;
    } else {
      assert s1 == 1_950_000 && s2 == 1_350_000 && s3 == 3_650_000 && s4 == 2_050_000;
      assert s5 == 9_000_000 && s6 == 22_000_000 && s7 == x - 40_000_000;
    }
  }

  /** The quick-calculation table computes the statutory progressive tax, rounded down. */
  lemma IncomeTaxIsProgressive(x: int)
    requires CalculateIncomeTax(x).Ok?
    ensures CalculateIncomeTax(x).value == ProgressiveTaxHundredths(x) / 100
  {
    if x > 0 {
      var i := FindTaxBracket(x).value;
      ProgressiveInBracket(x, i);
      var p := ProgressiveTaxHundredths(x);
      if i == 0 { assert p == 5 * x; }
      else if i == 1 { assert p == 10 * x - 9_750_000; }
      else if i == 2 { assert p == 20 * x - 42_750_000; }
      else if i == 3 { assert p == 23 * x - 63_600_000; }
      else if i == 4 { assert p == 33 * x - 153_600_000; }
      else if i == 5 { assert p == 40 * x - 279_600_000; }
      else { assert p == 45 * x - 479_600_000; }
    } else {
      assert x == 0;
    }
  }

  /** A higher taxable income never yields a lower income tax. */
  lemma IncomeTaxMonotone(x: int, y: int)
    requires x <= y
    requires CalculateIncomeTax(x).Ok? && CalculateIncomeTax(y).Ok?
    ensures CalculateIncomeTax(x).value <= CalculateIncomeTax(y).value
  {
    IncomeTaxIsProgressive(x);
    IncomeTaxIsProgressive(y);
    ProgressiveTaxMonotone(x, y);
  }

  /** Resident tax is 10% of the taxable income, rounded down. */
  function CalculateResidentTax(taxableIncome: int): (r: Result<int>)
    ensures r.Ok? <==> taxableIncome >= 0
    ensures r.Err? ==> r.error == InvalidArgument
    ensures r.Ok? ==> 100 * r.value <= ResidentTaxRatePercent * taxableIncome < 100 * r.value + 100
  {
    if taxableIncome < 0 then Err(InvalidArgument)
    else Ok(taxableIncome * ResidentTaxRatePercent / 100)
  }

  /** The social-insurance estimate is 15% of the gross salary, rounded down. */
  function CalculateSocialInsurance(salaryRevenue: int): (r: Result<int>)
    ensures r.Ok? <==> salaryRevenue >= 0
    ensures r.Err? ==> r.error == InvalidArgument
    ensures r.Ok? ==> 100 * r.value <= SocialInsuranceRatePercent * salaryRevenue < 100 * r.value + 100
  {
    if salaryRevenue < 0 then Err(InvalidArgument)
    else Ok(salaryRevenue * SocialInsuranceRatePercent / 100)
  }

  /** The marginal income-tax rate in per cent: 0 for no income, else the rate of the matching bracket. */
  function GetApplicableTaxRate(taxableIncome: int): (r: Result<int>)
    ensures taxableIncome < 0 ==> r == Err(InvalidArgument)
    ensures taxableIncome == 0 ==> r == Ok(0)
  {
    if taxableIncome < 0 then Err(InvalidArgument)
    else if taxableIncome == 0 then Ok(0)
    else
      match FindTaxBracket(taxableIncome)
      case None => Err(BracketNotFound)
      case Some(i) => Ok(IncomeTaxRates[i].ratePercent)
  }

  /**
   * The marginal rate fails exactly when the income tax does, and otherwise is
   * the rate of the bracket the income tax was computed with.
   */
  lemma ApplicableRateMatchesIncomeTax(x: int)
    ensures GetApplicableTaxRate(x).Ok? <==> CalculateIncomeTax(x).Ok?
    ensures GetApplicableTaxRate(x).Err? ==> GetApplicableTaxRate(x) == CalculateIncomeTax(x)
    ensures x > 0 && CalculateIncomeTax(x).Ok? ==>
              var rate := GetApplicableTaxRate(x).value;
              exists i :: 0 <= i < |IncomeTaxRates| && InTaxBracket(IncomeTaxRates[i], x) &&
                rate == IncomeTaxRates[i].ratePercent &&
                CalculateIncomeTax(x).value == Max(0, x * rate / 100 - IncomeTaxRates[i].deduction)
  {
  }
}
