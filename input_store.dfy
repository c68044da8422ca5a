/**
 * The input store: the form's current input, one field per group, updated in
 * place by one setter per group. A setter given 0 or no value clears its group,
 * so the store never holds an empty group.
 */
module InputState {
  import opened Wrappers
  import opened DomainTypes

  const DefaultSalary: int := 5_000_000

  /**
   * An optional amount that is present and not 0. Every setter but the
   * life-insurance one tests exactly this (`=== undefined || === 0`); the
   * life-insurance setter tests JavaScript truthiness, which agrees with it on
   * the integer amounts of the model.
   */
  predicate PresentNonZero(v: Option<int>) {
    v.Some? && v.value != 0
  }

  /** The iDeCo group a setter stores; likewise for earthquake, medical and commuting amounts. */
  function IdecoGroup(annualPayment: Option<int>): (r: Option<IdecoInput>)
    ensures r.Some? <==> PresentNonZero(annualPayment)
    ensures r.Some? ==> r.value.annualPayment == annualPayment.value
  {
    if PresentNonZero(annualPayment) then Some(IdecoInput(annualPayment.value)) else None
  }

  function EarthquakeInsuranceGroup(annualPayment: Option<int>): (r: Option<EarthquakeInsuranceInput>)
    ensures r.Some? <==> PresentNonZero(annualPayment)
    ensures r.Some? ==> r.value.annualPayment == annualPayment.value
  {
    if PresentNonZero(annualPayment) then Some(EarthquakeInsuranceInput(annualPayment.value)) else None
  }

  function MedicalExpenseGroup(totalExpense: Option<int>): (r: Option<MedicalExpenseInput>)
    ensures r.Some? <==> PresentNonZero(totalExpense)
    ensures r.Some? ==> r.value.totalExpense == totalExpense.value
  {
    if PresentNonZero(totalExpense) then Some(MedicalExpenseInput(totalExpense.value)) else None
  }

  function SpecialExpenseGroup(commuteExpense: Option<int>): (r: Option<SpecialExpenseInput>)
    ensures r.Some? <==> PresentNonZero(commuteExpense)
    ensures r.Some? ==> r.value.commuteExpense == commuteExpense.value
  {
    if PresentNonZero(commuteExpense) then Some(SpecialExpenseInput(commuteExpense.value)) else None
  }

  /** Cleared only when all three payments are falsy; otherwise all four fields are kept as given. */
  function LifeInsuranceGroup(isNewSystem: bool, general: Option<int>, pension: Option<int>, medicalCare: Option<int>)
    : (r: Option<LifeInsuranceInput>)
    ensures r.None? <==> !PresentNonZero(general) && !PresentNonZero(pension) && !PresentNonZero(medicalCare)
    ensures r.Some? ==> r.value == LifeInsuranceInput(isNewSystem, general, pension, medicalCare)
  {
    if !PresentNonZero(general) && !PresentNonZero(pension) && !PresentNonZero(medicalCare) then None
    else Some(LifeInsuranceInput(isNewSystem, general, pension, medicalCare))
  }

  /** Cleared only when both amounts are 0 or missing; a missing amount is stored as 0. */
  function DonationGroup(furusato: Option<int>, other: Option<int>): (r: Option<DonationInput>)
    ensures r.None? <==> !PresentNonZero(furusato) && !PresentNonZero(other)
    ensures r.Some? ==> r.value.furusato == (if furusato.Some? then furusato.value else 0)
    ensures r.Some? ==> r.value.other == (if other.Some? then other.value else 0)
  {
    if !PresentNonZero(furusato) && !PresentNonZero(other) then None
    else Some(DonationInput(if furusato.Some? then furusato.value else 0, if other.Some? then other.value else 0))
  }

  /** Cleared whenever the balance is 0 or missing, whatever the year and housing type. */
  function HousingLoanGroup(yearEndBalance: Option<int>, residenceYear: int, housingType: HousingType)
    : (r: Option<HousingLoanInput>)
    ensures r.None? <==> !PresentNonZero(yearEndBalance)
    ensures r.Some? ==> r.value == HousingLoanInput(yearEndBalance.value, residenceYear, housingType)
  {
    if PresentNonZero(yearEndBalance) then Some(HousingLoanInput(yearEndBalance.value, residenceYear, housingType)) else None
  }

  /** No group is present with nothing in it. */
  predicate NoEmptyGroups(input: DeductionInput) {
    (input.ideco.Some? ==> input.ideco.value.annualPayment != 0) &&
    (input.lifeInsurance.Some? ==>
       var l := input.lifeInsurance.value;
       PresentNonZero(l.generalLifeInsurance) || PresentNonZero(l.personalPensionInsurance) || PresentNonZero(l.medicalCareInsurance)) &&
    (input.earthquakeInsurance.Some? ==> input.earthquakeInsurance.value.annualPayment != 0) &&
    (input.medicalExpense.Some? ==> input.medicalExpense.value.totalExpense != 0) &&
    (input.donation.Some? ==> input.donation.value.furusato != 0 || input.donation.value.other != 0) &&
    (input.specialExpense.Some? ==> input.specialExpense.value.commuteExpense != 0) &&
    (input.housingLoan.Some? ==> input.housingLoan.value.yearEndBalance != 0)
  }

  /** What `resetInput` restores: the default salary and no group. */
  function DefaultInput(): (r: DeductionInput)
    ensures r.salary == DefaultSalary && NoEmptyGroups(r)
  {
    DeductionInput(DefaultSalary, None, None, None, None, None, None, None)
  }

  class InputStore {
    var salary: int
    var ideco: Option<IdecoInput>
    var lifeInsurance: Option<LifeInsuranceInput>
    var earthquakeInsurance: Option<EarthquakeInsuranceInput>
    var medicalExpense: Option<MedicalExpenseInput>
    var donation: Option<DonationInput>
    var specialExpense: Option<SpecialExpenseInput>
    var housingLoan: Option<HousingLoanInput>

    /** The input as the calculation reads it. */
    function Contents(): DeductionInput
      reads this
    {
      DeductionInput(salary, ideco, lifeInsurance, earthquakeInsurance, medicalExpense, donation,
                     specialExpense, housingLoan)
    }

    predicate Valid()
      reads this
    {
      NoEmptyGroups(Contents())
    }

    /** The initial state: the default salary and no group. */
    constructor ()
      ensures Valid() && Contents() == DefaultInput()
    {
      salary := DefaultSalary;
      ideco := None;
      lifeInsurance := None;
      earthquakeInsurance := None;
      medicalExpense := None;
      donation := None;
      specialExpense := None;
      housingLoan := None;
    }

    method ResetInput()
      modifies this
      ensures Valid() && Contents() == DefaultInput()
    {
      salary := DefaultSalary;
      ideco := None;
      lifeInsurance := None;
      earthquakeInsurance := None;
      medicalExpense := None;
      donation := None;
      specialExpense := None;
      housingLoan := None;
    }

    method SetSalary(newSalary: int)
      requires Valid()
      modifies this
      ensures Valid() && Contents() == old(Contents()).(salary := newSalary)
    {
      salary := newSalary;
    }

    method SetIdeco(annualPayment: Option<int>)
      requires Valid()
      modifies this
      ensures Valid() && Contents() == old(Contents()).(ideco := IdecoGroup(annualPayment))
    {
      if annualPayment.None? || annualPayment.value == 0 {
        ideco := None;
      } else {
        ideco := Some(IdecoInput(annualPayment.value));
      }
    }

    method SetLifeInsurance(isNewSystem: bool, general: Option<int>, pension: Option<int>, medicalCare: Option<int>)
      requires Valid()
      modifies this
      ensures Valid() &&
              Contents() == old(Contents()).(lifeInsurance := LifeInsuranceGroup(isNewSystem, general, pension, medicalCare))
    {
      if !PresentNonZero(general) && !PresentNonZero(pension) && !PresentNonZero(medicalCare) {
        lifeInsurance := None;
      } else {
        lifeInsurance := Some(LifeInsuranceInput(isNewSystem, general, pension, medicalCare));
      }
    }

    method SetEarthquakeInsurance(annualPayment: Option<int>)
      requires Valid()
      modifies this
      ensures Valid() && Contents() == old(Contents()).(earthquakeInsurance := EarthquakeInsuranceGroup(annualPayment))
    {
      if annualPayment.None? || annualPayment.value == 0 {
        earthquakeInsurance := None;
      } else {
        earthquakeInsurance := Some(EarthquakeInsuranceInput(annualPayment.value));
      }
    }

    method SetMedicalExpense(totalExpense: Option<int>)
      requires Valid()
      modifies this
      ensures Valid() && Contents() == old(Contents()).(medicalExpense := MedicalExpenseGroup(totalExpense))
    {
      if totalExpense.None? || totalExpense.value == 0 {
        medicalExpense := None;
      } else {
        medicalExpense := Some(MedicalExpenseInput(totalExpense.value));
      }
    }

    method SetDonation(furusato: Option<int>, other: Option<int>)
      requires Valid()
      modifies this
      ensures Valid() && Contents() == old(Contents()).(donation := DonationGroup(furusato, other))
    {
      if (furusato.None? || furusato.value == 0) && (other.None? || other.value == 0) {
        donation := None;
      } else {
        donation := Some(DonationInput(if furusato.Some? then furusato.value else 0,
                                       if other.Some? then other.value else 0));
      }
    }

    method SetSpecialExpense(commuteExpense: Option<int>)
      requires Valid()
      modifies this
      ensures Valid() && Contents() == old(Contents()).(specialExpense := SpecialExpenseGroup(commuteExpense))
    {
      if commuteExpense.None? || commuteExpense.value == 0 {
        specialExpense := None;
      } else {
        specialExpense := Some(SpecialExpenseInput(commuteExpense.value));
      }
    }

    method SetHousingLoan(yearEndBalance: Option<int>, residenceYear: int, housingType: HousingType)
      requires Valid()
      modifies this
      ensures Valid() &&
              Contents() == old(Contents()).(housingLoan := HousingLoanGroup(yearEndBalance, residenceYear, housingType))
    {
      if yearEndBalance.None? || yearEndBalance.value == 0 {
        housingLoan := None;
      } else {
        housingLoan := Some(HousingLoanInput(yearEndBalance.value, residenceYear, housingType));
      }
    }
  }
}
