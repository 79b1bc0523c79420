/**
 * The legacy client rule set used by the older form: the values are tested
 * as they are (no trimming or stripping for the Aadhaar number and the PAN),
 * names only need two UTF-16 units after trimming, and consent must be the
 * boolean `true` itself.
 */
module LegacyValidation {
  import opened Js
  import opened Patterns

  const AadhaarRequired := "Aadhaar number is required"
  const AadhaarNotTwelveDigits := "Aadhaar number must be 12 digits"
  const PanRequired := "PAN number is required"
  const PanInvalid := "Invalid PAN number format"
  const NameRequired := "Entrepreneur name is required"
  const NameTooShort := "Name must be at least 2 characters"
  const ConsentMissing := "Consent must be given"

  /** `validateAadhaar`: present, then exactly twelve ASCII digits as written. */
  function ValidateAadhaar(aadhaar: JsVal): (r: Option<string>)
    ensures r == Some(AadhaarRequired) <==> !Truthy(aadhaar)
    ensures r == None <==> Truthy(aadhaar) && DigitsOfLength(ToJsString(aadhaar), 12)
    ensures r == None || r == Some(AadhaarRequired) || r == Some(AadhaarNotTwelveDigits)
  {
    if !Truthy(aadhaar) then Some(AadhaarRequired)
    else if !Test(AadhaarPattern, ToJsString(aadhaar)) then Some(AadhaarNotTwelveDigits)
    else None
  }

  /** `validatePAN`: present, then five letters, four digits and a letter, in either case. */
  function ValidatePan(pan: JsVal): (r: Option<string>)
    ensures r == Some(PanRequired) <==> !Truthy(pan)
    ensures r == None <==> Truthy(pan) && PanShape(ToJsString(pan))
    ensures r == None || r == Some(PanRequired) || r == Some(PanInvalid)
  {
    if !Truthy(pan) then Some(PanRequired)
    else if !Test(PanPattern, ToJsString(pan)) then Some(PanInvalid)
    else None
  }

  /** `validateEntrepreneurName`: a non-blank name of at least two UTF-16 units once trimmed. */
  function ValidateEntrepreneurName(name: JsVal): (r: Option<string>)
    requires StringOrFalsy(name)
    ensures r == Some(NameRequired) <==> !Truthy(name) || Trim(name.s) == ""
    ensures r == None <==> name.Str? && Utf16Length(Trim(name.s)) >= 2
    ensures r == None || r == Some(NameRequired) || r == Some(NameTooShort)
  {
    if !Truthy(name) || Utf16Length(Trim(name.s)) == 0 then Some(NameRequired)
    else if Utf16Length(Trim(name.s)) < 2 then Some(NameTooShort)
    else None
  }

  /** `validateConsent`: only the boolean `true` is consent (`consent !== true` fails). */
  function ValidateConsent(consent: JsVal): (r: Option<string>)
    ensures r == None <==> consent == Bool(true)
    ensures r == None || r == Some(ConsentMissing)
  {
    if consent != Bool(true) then Some(ConsentMissing) else None
  }

  /** The callers of `validateForm` pass a string (or nothing) as the step-1 name. */
  predicate WellTyped(formData: map<string, JsVal>, step: int) {
    step == 1 ==> StringOrFalsy(Get(formData, "entrepreneurName"))
  }

  /** Step 1 checks the Aadhaar number, the name and the consent, each with its own validator. */
  predicate StepOneReport(formData: map<string, JsVal>, errors: map<string, string>)
    requires StringOrFalsy(Get(formData, "entrepreneurName"))
  {
    && errors.Keys <= {"aadhaarNumber", "entrepreneurName", "consentGiven"}
    && Lookup(errors, "aadhaarNumber") == ValidateAadhaar(Get(formData, "aadhaarNumber"))
    && Lookup(errors, "entrepreneurName") == ValidateEntrepreneurName(Get(formData, "entrepreneurName"))
    && Lookup(errors, "consentGiven") == ValidateConsent(Get(formData, "consentGiven"))
  }

  /**
   * The errors object of `validateForm(formData, step)`: at step 1 one entry
   * per failing field of the three, at step 2 the PAN's entry if it fails,
   * and nothing at any other step.
   */
  function StepErrors(formData: map<string, JsVal>, step: int): (errors: map<string, string>)
    requires WellTyped(formData, step)
    ensures step == 1 ==> StepOneReport(formData, errors)
    ensures step == 2 ==> errors.Keys <= {"panNumber"}
    ensures step == 2 ==> Lookup(errors, "panNumber") == ValidatePan(Get(formData, "panNumber"))
    ensures step != 1 && step != 2 ==> errors == map[]
  {
    if step == 1 then
      var a := Entry("aadhaarNumber", ValidateAadhaar(Get(formData, "aadhaarNumber")));
      var n := Entry("entrepreneurName", ValidateEntrepreneurName(Get(formData, "entrepreneurName")));
      var c := Entry("consentGiven", ValidateConsent(Get(formData, "consentGiven")));
      assert Lookup(a + n + c, "aadhaarNumber") == Lookup(a, "aadhaarNumber");
      assert Lookup(a + n + c, "entrepreneurName") == Lookup(n, "entrepreneurName");
      a + n + c
    else if step == 2 then
      Entry("panNumber", ValidatePan(Get(formData, "panNumber")))
    else map[]
  }

  /** Every field the step checks passes its validator. */
  predicate StepPasses(formData: map<string, JsVal>, step: int)
    requires WellTyped(formData, step)
  {
    && (step == 1 ==>
          && ValidateAadhaar(Get(formData, "aadhaarNumber")) == None
          && ValidateEntrepreneurName(Get(formData, "entrepreneurName")) == None
          && ValidateConsent(Get(formData, "consentGiven")) == None)
    && (step == 2 ==> ValidatePan(Get(formData, "panNumber")) == None)
  }

  /** `validateForm`: fills an errors object field by field and reports whether it stayed empty. */
  method ValidateForm(formData: map<string, JsVal>, step: int)
    returns (isValid: bool, errors: map<string, string>)
    requires WellTyped(formData, step)
    ensures errors == StepErrors(formData, step)
    ensures isValid <==> StepPasses(formData, step)
  {
    errors := map[];
    if step == 1 {
      var aadhaarError := ValidateAadhaar(Get(formData, "aadhaarNumber"));
      if aadhaarError.Some? { errors := errors["aadhaarNumber" := aadhaarError.value]; }
      AddEntry(map[], "aadhaarNumber", aadhaarError, errors);
      ghost var a := errors;
      var nameError := ValidateEntrepreneurName(Get(formData, "entrepreneurName"));
      if nameError.Some? { errors := errors["entrepreneurName" := nameError.value]; }
      AddEntry(a, "entrepreneurName", nameError, errors);
      ghost var an := errors;
      var consentError := ValidateConsent(Get(formData, "consentGiven"));
      if consentError.Some? { errors := errors["consentGiven" := consentError.value]; }
      AddEntry(an, "consentGiven", consentError, errors);
    } else if step == 2 {
      var panError := ValidatePan(Get(formData, "panNumber"));
      if panError.Some? { errors := errors["panNumber" := panError.value]; }
      AddEntry(map[], "panNumber", panError, errors);
    }
    isValid := |errors| == 0;
    StepValidIff(formData, step);
  }

  /** The errors object is empty exactly when every checked field passes. */
  lemma StepValidIff(formData: map<string, JsVal>, step: int)
    requires WellTyped(formData, step)
    ensures StepErrors(formData, step) == map[] <==> StepPasses(formData, step)
  {
    var errors := StepErrors(formData, step);
    if errors != map[] {
      var k :| k in errors;
      assert Lookup(errors, k).Some?;
    }
  }

  /** A form with a short Aadhaar number, an empty name and no consent reports all three fields. */
  lemma AllThreeReported()
    ensures StepErrors(map["aadhaarNumber" := Str("1234"), "entrepreneurName" := Str(""),
                           "consentGiven" := Bool(false)], 1).Keys
            == {"aadhaarNumber", "entrepreneurName", "consentGiven"}
  {
    var f := map["aadhaarNumber" := Str("1234"), "entrepreneurName" := Str(""), "consentGiven" := Bool(false)];
    assert Get(f, "aadhaarNumber") == Str("1234");
    assert Get(f, "entrepreneurName") == Str("");
    assert Get(f, "consentGiven") == Bool(false);
  }

  /** Padding is not stripped here: a twelve-digit number with a trailing space is refused. */
  lemma PaddedAadhaarRefused(digits: string)
    requires DigitsOfLength(digits, 12)
    ensures ValidateAadhaar(Str(digits + " ")) == Some(AadhaarNotTwelveDigits)
  {
  }

  /** Only the boolean `true` is consent: the string "true" and the number 1 are not. */
  lemma ConsentIsStrict()
    ensures ValidateConsent(Str("true")) == Some(ConsentMissing)
    ensures ValidateConsent(Num(1)) == Some(ConsentMissing)
    ensures ValidateConsent(Bool(true)) == None
  {
  }
}
