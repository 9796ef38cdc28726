/** The patient form of the detector page: its validator, its submit
    handler and the id generator button. */
module PatientForm {
  import opened Wrappers
  import opened JsText
  import opened Catalogue
  import opened Store
  import opened Utils

  /** The validator's error record: one optional message per field, so a
      field never carries two. */
  datatype FormErrors = FormErrors(
    firstName: Option<string>,
    patientId: Option<string>,
    username: Option<string>,
    gender: Option<string>,
    age: Option<string>)
  {
    /** `Object.keys(errors).length === 0`. */
    predicate IsEmpty() {
      firstName.None? && patientId.None? && username.None? && gender.None? && age.None?
    }
  }

  const NoErrors := FormErrors(None, None, None, None, None)

  const FirstNameRequired := "First name is required"
  const PatientIdRequired := "Patient ID is required"
  const UsernameRequired := "Username is required"
  const GenderRequired := "Gender is required"
  const AgeRequired := "Age is required"
  const AgeInvalid := "Please enter a valid age"

  /** `parseInt(age) < 1 || parseInt(age) > 120`. Both comparisons with NaN
      are false, so an age that does not parse is not refused here. */
  predicate AgeOutOfRange(age: string) {
    var n := ParseInt(age);
    n.Some? && (n.value < 1 || n.value > 120)
  }

  /** An age with no leading digit parses to NaN and passes the range check. */
  lemma AgeNotANumberPasses()
    ensures !AgeOutOfRange("abc")
  {
    assert TrimStart("abc") == "abc";
    assert DigitCount("abc", false) == 0;
  }

  /** Characters after the leading digits are ignored: an age in range
      followed by text that does not start with a digit passes, "42 years"
      among them. */
  lemma AgeTrailingTextIgnored(n: nat, rest: string)
    requires 1 <= n <= 120
    requires rest == [] || !IsDigit(rest[0])
    ensures !AgeOutOfRange(NatString(n) + rest)
  {
    ParseIntStopsAtNonDigit(n, rest);
  }

  lemma AgeWithUnitPasses()
    ensures !AgeOutOfRange("42 years")
  {
    assert NatString(42) + " years" == "42 years";
    AgeTrailingTextIgnored(42, " years");
  }

  /** An age written as an integer is refused exactly when it lies outside 1..120. */
  lemma AgeRangeOfIntegers(n: int)
    ensures AgeOutOfRange(IntString(n)) <==> n < 1 || n > 120
  {
    ParseIntString(n);
  }

  /** The messages `validateForm` collects for a patient: names are required
      after trimming, gender must be chosen, and a non-empty age is refused
      only when it parses to a number outside 1..120. */
  function FormErrorsOf(p: PatientData): (e: FormErrors)
    ensures e.firstName == if IsBlank(p.firstName) then Some(FirstNameRequired) else None
    ensures e.patientId == if IsBlank(p.patientId) then Some(PatientIdRequired) else None
    ensures e.username == if IsBlank(p.username) then Some(UsernameRequired) else None
    ensures e.gender == if p.gender == Unspecified then Some(GenderRequired) else None
    ensures e.age.None? <==> p.age != "" && !AgeOutOfRange(p.age)
    ensures p.age == "" ==> e.age == Some(AgeRequired)
    ensures p.age != "" && AgeOutOfRange(p.age) ==> e.age == Some(AgeInvalid)
  {
    TrimEmptyIffBlank(p.firstName);
    TrimEmptyIffBlank(p.patientId);
    TrimEmptyIffBlank(p.username);
    FormErrors(
      if Trim(p.firstName) == "" then Some(FirstNameRequired) else None,
      if Trim(p.patientId) == "" then Some(PatientIdRequired) else None,
      if Trim(p.username) == "" then Some(UsernameRequired) else None,
      if p.gender == Unspecified then Some(GenderRequired) else None,
      if p.age == "" then Some(AgeRequired)
      else if AgeOutOfRange(p.age) then Some(AgeInvalid)
      else None)
  }

  /** The patient the form lets through. */
  predicate PatientAccepted(p: PatientData) {
    && !IsBlank(p.firstName) && !IsBlank(p.patientId) && !IsBlank(p.username)
    && p.gender != Unspecified
    && p.age != "" && !AgeOutOfRange(p.age)
  }

  /** The form has no message exactly when the patient is accepted. */
  lemma FormAcceptance(p: PatientData)
    ensures FormErrorsOf(p).IsEmpty() <==> PatientAccepted(p)
  {
  }

  class PatientFormView {
    const store: AppStore
    var errors: FormErrors

    constructor(store: AppStore)
      ensures this.store == store && errors == NoErrors
    {
      this.store := store;
      errors := NoErrors;
    }

    /** `validateForm`: collects the messages of `FormErrorsOf` field by
        field; the form is valid exactly when no field has a message. */
    method ValidateForm() returns (ok: bool)
      modifies this
      ensures errors == FormErrorsOf(store.currentPatient)
      ensures ok <==> errors.IsEmpty()
    {
      var p := store.currentPatient;
      var newErrors := NoErrors;
      if Trim(p.firstName) == "" {
        newErrors := newErrors.(firstName := Some(FirstNameRequired));
      }
      if Trim(p.patientId) == "" {
        newErrors := newErrors.(patientId := Some(PatientIdRequired));
      }
      if Trim(p.username) == "" {
        newErrors := newErrors.(username := Some(UsernameRequired));
      }
      if p.gender == Unspecified {
        newErrors := newErrors.(gender := Some(GenderRequired));
      }
      if p.age == "" {
        newErrors := newErrors.(age := Some(AgeRequired));
      } else if AgeOutOfRange(p.age) {
        newErrors := newErrors.(age := Some(AgeInvalid));
      }
      errors := newErrors;
      ok := newErrors.IsEmpty();
    }

    /** `handleSubmit`: validates the current patient and returns whether
        `onSubmit` was invoked, which happens exactly when the patient
        passes every rule of the form. */
    method HandleSubmit() returns (submitted: bool)
      modifies this
      ensures errors == FormErrorsOf(store.currentPatient)
      ensures submitted <==> PatientAccepted(store.currentPatient)
    {
      submitted := ValidateForm();
      FormAcceptance(store.currentPatient);
    }

    /** `handleGenerateId`: only the patient id changes. */
    method HandleGenerateId(now: nat, randomText: string)
      requires store != this as object
      modifies store
      ensures store.currentPatient == old(store.currentPatient).(patientId := GeneratePatientId(now, randomText))
      ensures store.theme == old(store.theme) && store.scanHistory == old(store.scanHistory)
      ensures store.modelsLoaded == old(store.modelsLoaded)
    {
      store.SetPatientData(PatientPatch(None, Some(GeneratePatientId(now, randomText)), None, None, None));
    }
  }
}
