/**
  The four-page application form for patients seeking sponsored care: personal details,
  health information, financial information and treatment goals. Each page has
  required fields, checked before the wizard moves on and again on submission.
*/
module PatientApplication {
  import opened Wizard

  datatype TextField =
    // page 1: personal information
    | FirstName | LastName | Email | Phone | DateOfBirth | Address | City | State | ZipCode
    // page 2: health information
    | PrimaryCondition | Symptoms | CurrentTreatments | PreviousTreatments | Medications | PreferredProviders
    // page 3: financial information
    | HouseholdIncome | HouseholdSize | EmploymentStatus | InsuranceStatus
    // page 4: additional information
    | TreatmentGoals | AdditionalInfo

  /** The single checkbox. */
  datatype FlagField = AgreeToTerms

  /** The form's record; a JavaScript object with one key per field. */
  datatype FormData = FormData(
    text: map<TextField, string>,
    flags: map<FlagField, bool>)

  /** Every field has a value. */
  predicate Total(form: FormData) {
    && (forall f: TextField :: f in form.text)
    && (forall f: FlagField :: f in form.flags)
  }

  /** Empty text, the box unticked: the form at the start and after a submission. */
  const InitialForm := FormData(
    map f: TextField :: "",
    map f: FlagField :: false)

  /** A change reported through `handleInputChange`: a text box's value or a checkbox's state. */
  datatype Input = TextInput(field: TextField, value: string) | CheckInput(flag: FlagField, checked: bool)

  /** `{ ...form, [field]: value }`: the one field named takes the new value. */
  function WithInput(form: FormData, input: Input): (r: FormData)
    requires Total(form)
    ensures Total(r)
    ensures input.TextInput? ==> r.text[input.field] == input.value
    ensures input.CheckInput? ==> r.flags[input.flag] == input.checked
    ensures forall f :: f in r.text && !(input.TextInput? && f == input.field) ==> r.text[f] == form.text[f]
    ensures forall f :: f in r.flags && !(input.CheckInput? && f == input.flag) ==> r.flags[f] == form.flags[f]
  {
    match input
    case TextInput(field, value) => form.(text := form.text[field := value])
    case CheckInput(flag, checked) => form.(flags := form.flags[flag := checked])
  }

  // ---------------------------------------------------------------------------
  // Pages and their checks
  // ---------------------------------------------------------------------------

  function PageOfText(f: TextField): int {
    match f
    case FirstName | LastName | Email | Phone | DateOfBirth | Address | City | State | ZipCode => 1
    case PrimaryCondition | Symptoms | CurrentTreatments | PreviousTreatments | Medications | PreferredProviders => 2
    case HouseholdIncome | HouseholdSize | EmploymentStatus | InsuranceStatus => 3
    case TreatmentGoals | AdditionalInfo => 4
  }

  function PageOfFlag(f: FlagField): int {
    match f
    case AgreeToTerms => 4
  }

  /** The page an input is shown on. */
  function PageOf(input: Input): int {
    match input
    case TextInput(field, _) => PageOfText(field)
    case CheckInput(flag, _) => PageOfFlag(flag)
  }

  /** `validateStep(step)`: the page's required fields are filled in, in JavaScript's truthy sense. */
  function ValidateStep(form: FormData, step: int): bool
    requires Total(form)
  {
    if step == 1 then
      form.text[FirstName] != "" && form.text[LastName] != "" && form.text[Email] != "" && form.text[Phone] != ""
    else if step == 2 then
      form.text[PrimaryCondition] != "" && form.text[Symptoms] != ""
    else if step == 3 then
      form.text[HouseholdIncome] != "" && form.text[HouseholdSize] != ""
    else if step == 4 then
      form.text[TreatmentGoals] != "" && form.flags[AgreeToTerms]
    else
      false
  }

  // The required fields, page by page.

  function RequiredText(step: int): set<TextField> {
    if step == 1 then {FirstName, LastName, Email, Phone}
    else if step == 2 then {PrimaryCondition, Symptoms}
    else if step == 3 then {HouseholdIncome, HouseholdSize}
    else if step == 4 then {TreatmentGoals}
    else {}
  }

  function RequiredFlags(step: int): set<FlagField> {
    if step == 4 then {AgreeToTerms} else {}
  }

  /** Every required field is filled in: text non-empty, a box ticked. */
  predicate Filled(form: FormData, step: int)
    requires Total(form)
  {
    && (forall f :: f in RequiredText(step) ==> form.text[f] != "")
    && (forall f :: f in RequiredFlags(step) ==> form.flags[f])
  }

  /** A page passes its check exactly when it is one of the four pages and its required fields are filled. */
  lemma ValidateStepChecksRequired(form: FormData, step: int)
    requires Total(form)
    ensures ValidateStep(form, step) <==> IsStep(step) && Filled(form, step)
  {
    if step == 1 {
      assert Filled(form, step) <==> (form.text[FirstName] != "" && form.text[LastName] != ""
        && form.text[Email] != "" && form.text[Phone] != "");
    }
  }

  /** Each page requires only fields shown on that page. */
  lemma RequiredAreOnTheirPage(step: int)
    ensures forall f :: f in RequiredText(step) ==> PageOfText(f) == step
    ensures forall f :: f in RequiredFlags(step) ==> PageOfFlag(f) == step
  {
  }

  /** Changing a field shown on another page leaves a page's check as it was. */
  lemma OtherPageInput(form: FormData, input: Input, step: int)
    requires Total(form) && PageOf(input) != step
    ensures ValidateStep(WithInput(form, input), step) == ValidateStep(form, step)
  {
    var r := WithInput(form, input);
    RequiredAreOnTheirPage(step);
    ValidateStepChecksRequired(form, step);
    ValidateStepChecksRequired(r, step);
    assert Filled(r, step) == Filled(form, step);
  }

  /** The empty form fails every page's check, so it cannot be submitted or advanced. */
  lemma InitialFormFailsEveryStep(step: int)
    ensures !ValidateStep(InitialForm, step)
  {
    assert InitialForm.text[FirstName] == "";
  }

  /** Every page passes: the whole application has been filled in. */
  predicate AllPagesValid(form: FormData)
    requires Total(form)
  {
    forall k :: FirstStep <= k <= TotalSteps ==> ValidateStep(form, k)
  }

  // ---------------------------------------------------------------------------
  // The wizard
  // ---------------------------------------------------------------------------

  class Application {
    var currentStep: int
    var formData: FormData

    ghost predicate Valid()
      reads this
    {
      IsStep(currentStep) && Total(formData)
    }

    /** Every page before the current one passes its check. */
    ghost predicate EarlierPagesValid()
      reads this
      requires Valid()
    {
      forall k :: FirstStep <= k < currentStep ==> ValidateStep(formData, k)
    }

    constructor ()
      ensures currentStep == FirstStep && formData == InitialForm
      ensures Valid() && EarlierPagesValid()
    {
      currentStep := FirstStep;
      formData := InitialForm;
    }

    /**
      A text box or checkbox changed. The wizard renders only the current page's
      inputs, and such a change keeps the earlier pages valid.
    */
    method HandleInputChange(input: Input)
      requires Valid()
      modifies this
      ensures formData == WithInput(old(formData), input)
      ensures currentStep == old(currentStep)
      ensures Valid()
      ensures old(EarlierPagesValid()) && PageOf(input) >= currentStep ==> EarlierPagesValid()
    {
      ghost var before := formData;
      formData := WithInput(formData, input);
      forall k | FirstStep <= k < currentStep && PageOf(input) >= currentStep
        ensures ValidateStep(formData, k) == ValidateStep(before, k)
      {
        OtherPageInput(before, input, k);
      }
    }

    /** "Next": moves on only when the current page passes its check (otherwise an error is shown). */
    method NextStep()
      requires Valid()
      modifies this
      ensures Valid()
      ensures formData == old(formData)
      ensures currentStep == if ValidateStep(formData, old(currentStep)) then Advance(old(currentStep)) else old(currentStep)
      ensures old(EarlierPagesValid()) ==> EarlierPagesValid()
    {
      MovesStayOnPages(currentStep);
      if ValidateStep(formData, currentStep) {
        currentStep := Advance(currentStep);
      }
    }

    /** "Previous": moves back one page, staying on the first. */
    method PrevStep()
      requires Valid()
      modifies this
      ensures currentStep == Retreat(old(currentStep))
      ensures formData == old(formData)
      ensures Valid()
      ensures old(EarlierPagesValid()) ==> EarlierPagesValid()
    {
      MovesStayOnPages(currentStep);
      currentStep := Retreat(currentStep);
    }

    /**
      "Submit": refused (with an error) unless the current page passes its check; when
      accepted the wizard starts over with an empty form. Submitted from the last page
      with the earlier pages valid, the accepted application has every page filled in.
    */
    method HandleSubmit() returns (submitted: bool)
      requires Valid()
      modifies this
      ensures submitted == ValidateStep(old(formData), old(currentStep))
      ensures submitted ==> currentStep == FirstStep && formData == InitialForm
      ensures !submitted ==> currentStep == old(currentStep) && formData == old(formData)
      ensures Valid()
      ensures old(EarlierPagesValid()) ==> EarlierPagesValid()
      ensures submitted && old(currentStep) == TotalSteps && old(EarlierPagesValid()) ==> AllPagesValid(old(formData))
    {
      if !ValidateStep(formData, currentStep) {
        submitted := false;
        return;
      }
      submitted := true;
      currentStep := FirstStep;
      formData := InitialForm;
    }
  }
}
