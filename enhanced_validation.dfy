/**
 * The client validation and formatting library used by the newer form:
 * single-field validators that answer `null` or one fixed message, a
 * step-level `validateForm`, keystroke formatters and the step gate
 * `getNextStep`. Unlike the legacy rule set it strips whitespace, rejects
 * placeholder Aadhaar numbers, caps and restricts names, and accepts any
 * truthy consent.
 *
 * The name pattern `[\p{L}\p{M}\s.'-]` needs Unicode's letter and mark
 * categories; they are passed in as `isLetterOrMark`.
 */
module EnhancedValidation {
  import opened Js
  import opened Patterns

  const PanRequired := "PAN number is required"
  const PanInvalid := "Invalid PAN format. Example: ABCDE1234F"
  const AadhaarRequired := "Aadhaar number is required"
  const AadhaarNotTwelveDigits := "Aadhaar number must be exactly 12 digits"
  const AadhaarPlaceholder := "Invalid Aadhaar number"
  const NameRequired := "Entrepreneur name is required"
  const NameTooShort := "Name must be at least 2 characters long"
  const NameTooLong := "Name must not exceed 100 characters"
  const NameBadCharacter := "Name can only contain letters, spaces, and common punctuation"
  const ConsentMissing := "Consent must be given to proceed with registration"
  const OtpRequired := "OTP is required"
  const OtpInvalid := "OTP must be exactly 6 digits"

  /** Letters and marks of Unicode include exactly the 52 ASCII letters among ASCII characters. */
  predicate AgreesWithUnicodeOnAscii(isLetterOrMark: char -> bool) {
    forall c: char :: c < '\U{80}' ==> (isLetterOrMark(c) <==> IsAsciiLetter(c))
  }

  // ---------------------------------------------------------------------
  // Single-field validators

  /** `validatePAN`: trimmed and upper-cased, then five letters, four digits, one letter. */
  function ValidatePan(pan: JsVal): (r: Option<string>)
    ensures r == None || r == Some(PanRequired) || r == Some(PanInvalid)
    ensures r == Some(PanRequired) <==> !Truthy(pan)
    ensures r == None <==> Truthy(pan) && PanShape(Trim(ToJsString(pan)))
  {
    PanShapeIgnoresCase(Trim(ToJsString(pan)));
    if !Truthy(pan) then Some(PanRequired)
    else if !Test(PanPattern, ToUpperAscii(Trim(ToJsString(pan)))) then Some(PanInvalid)
    else None
  }

  /** Every digit of a twelve-digit string is the same `d`. */
  predicate Repeats(s: string, d: char) {
    forall i :: 0 <= i < |s| ==> s[i] == d
  }

  /**
   * `validateAadhaar`: all whitespace is removed, then exactly twelve ASCII
   * digits are required, and the two placeholder numbers made of zeros only
   * or of ones only are refused.
   */
  function ValidateAadhaar(aadhaar: JsVal): (r: Option<string>)
    ensures r == None || r == Some(AadhaarRequired) || r == Some(AadhaarNotTwelveDigits)
                      || r == Some(AadhaarPlaceholder)
    ensures r == Some(AadhaarRequired) <==> !Truthy(aadhaar)
    ensures r == Some(AadhaarNotTwelveDigits) <==>
              Truthy(aadhaar) && !DigitsOfLength(RemoveWhitespace(ToJsString(aadhaar)), 12)
    ensures r == None <==>
              && Truthy(aadhaar)
              && DigitsOfLength(RemoveWhitespace(ToJsString(aadhaar)), 12)
              && !Repeats(RemoveWhitespace(ToJsString(aadhaar)), '0')
              && !Repeats(RemoveWhitespace(ToJsString(aadhaar)), '1')
  {
    if !Truthy(aadhaar) then Some(AadhaarRequired)
    else
      var clean := RemoveWhitespace(ToJsString(aadhaar));
      RepeatedTwelve(clean);
      if !Test(AadhaarPattern, clean) then Some(AadhaarNotTwelveDigits)
      else if clean == "000000000000" || clean == "111111111111" then Some(AadhaarPlaceholder)
      else None
  }

  /** For twelve characters, "all zeros" and "all ones" are the two literal placeholders. */
  lemma RepeatedTwelve(s: string)
    ensures |s| == 12 ==> (Repeats(s, '0') <==> s == "000000000000")
    ensures |s| == 12 ==> (Repeats(s, '1') <==> s == "111111111111")
  {
  }

  /** A character the name pattern `[\p{L}\p{M}\s.'-]` admits. */
  predicate NameChar(c: char, isLetterOrMark: char -> bool) {
    isLetterOrMark(c) || IsJsWhitespace(c) || c == '.' || c == '\'' || c == '-'
  }

  /**
   * `validateEntrepreneurName`: on the trimmed name, the first failing check
   * of: present, at least 2 UTF-16 units, at most 100, only name characters.
   */
  function ValidateEntrepreneurName(name: JsVal, isLetterOrMark: char -> bool): (r: Option<string>)
    requires StringOrFalsy(name)
    ensures r == Some(NameRequired) <==> !Truthy(name) || Trim(name.s) == ""
    ensures r == Some(NameTooShort) <==>
              name.Str? && Trim(name.s) != "" && Utf16Length(Trim(name.s)) < 2
    ensures r == Some(NameTooLong) <==> name.Str? && Utf16Length(Trim(name.s)) > 100
    ensures r == None <==>
              && name.Str?
              && 2 <= Utf16Length(Trim(name.s)) <= 100
              && forall i :: 0 <= i < |Trim(name.s)| ==> NameChar(Trim(name.s)[i], isLetterOrMark)
    ensures r == None || r == Some(NameRequired) || r == Some(NameTooShort)
                      || r == Some(NameTooLong) || r == Some(NameBadCharacter)
  {
    if !Truthy(name) || Trim(name.s) == "" then Some(NameRequired)
    else
      var trimmed := Trim(name.s);
      if Utf16Length(trimmed) < 2 then Some(NameTooShort)
      else if Utf16Length(trimmed) > 100 then Some(NameTooLong)
      else if exists i :: 0 <= i < |trimmed| && !NameChar(trimmed[i], isLetterOrMark) then
        Some(NameBadCharacter)
      else None
  }

  /** `validateConsent`: any truthy value is consent. */
  function ValidateConsent(consent: JsVal): (r: Option<string>)
    ensures r == None <==> Truthy(consent)
    ensures r == None || r == Some(ConsentMissing)
  {
    if !Truthy(consent) then Some(ConsentMissing) else None
  }

  /** `validateOTP`: exactly six ASCII digits, untrimmed. */
  function ValidateOtp(otp: JsVal): (r: Option<string>)
    ensures r == Some(OtpRequired) <==> !Truthy(otp)
    ensures r == None <==> Truthy(otp) && DigitsOfLength(ToJsString(otp), 6)
    ensures r == None || r == Some(OtpRequired) || r == Some(OtpInvalid)
  {
    if !Truthy(otp) then Some(OtpRequired)
    else if !Test(OtpPattern, ToJsString(otp)) then Some(OtpInvalid)
    else None
  }

  // ---------------------------------------------------------------------
  // validateForm

  /** The callers of `validateForm` pass a string (or nothing) as the step-1 name. */
  predicate WellTyped(formData: map<string, JsVal>, step: int) {
    step == 1 ==> StringOrFalsy(Get(formData, "entrepreneurName"))
  }

  /** Step 1 checks the Aadhaar number, the name and the consent, each with its own validator. */
  predicate StepOneReport(formData: map<string, JsVal>, isLetterOrMark: char -> bool, errors: map<string, string>)
    requires StringOrFalsy(Get(formData, "entrepreneurName"))
  {
    && errors.Keys <= {"aadhaarNumber", "entrepreneurName", "consentGiven"}
    && Lookup(errors, "aadhaarNumber") == ValidateAadhaar(Get(formData, "aadhaarNumber"))
    && Lookup(errors, "entrepreneurName") == ValidateEntrepreneurName(Get(formData, "entrepreneurName"), isLetterOrMark)
    && Lookup(errors, "consentGiven") == ValidateConsent(Get(formData, "consentGiven"))
  }

  /** Step 2 checks the PAN, and the OTP only when one was supplied. */
  predicate StepTwoReport(formData: map<string, JsVal>, errors: map<string, string>) {
    && errors.Keys <= {"panNumber", "otp"}
    && Lookup(errors, "panNumber") == ValidatePan(Get(formData, "panNumber"))
    && Lookup(errors, "otp") == (if Truthy(Get(formData, "otp")) then ValidateOtp(Get(formData, "otp")) else None)
  }

  /**
   * The errors object of `validateForm(formData, step)`: for each field the
   * step checks, an entry exactly when that field's validator fails, holding
   * its message; nothing for any other step.
   */
  function StepErrors(formData: map<string, JsVal>, step: int, isLetterOrMark: char -> bool): (errors: map<string, string>)
    requires WellTyped(formData, step)
    ensures step == 1 ==> StepOneReport(formData, isLetterOrMark, errors)
    ensures step == 2 ==> StepTwoReport(formData, errors)
    ensures step != 1 && step != 2 ==> errors == map[]
  {
    if step == 1 then
      var a := Entry("aadhaarNumber", ValidateAadhaar(Get(formData, "aadhaarNumber")));
      var n := Entry("entrepreneurName", ValidateEntrepreneurName(Get(formData, "entrepreneurName"), isLetterOrMark));
      var c := Entry("consentGiven", ValidateConsent(Get(formData, "consentGiven")));
      assert Lookup(a + n + c, "aadhaarNumber") == Lookup(a, "aadhaarNumber");
      assert Lookup(a + n + c, "entrepreneurName") == Lookup(n, "entrepreneurName");
      a + n + c
    else if step == 2 then
      var p := Entry("panNumber", ValidatePan(Get(formData, "panNumber")));
      var o := if Truthy(Get(formData, "otp")) then Entry("otp", ValidateOtp(Get(formData, "otp"))) else map[];
      assert Lookup(p + o, "panNumber") == Lookup(p, "panNumber");
      p + o
    else map[]
  }

  /** Every field the step checks passes its validator. */
  predicate StepPasses(formData: map<string, JsVal>, step: int, isLetterOrMark: char -> bool)
    requires WellTyped(formData, step)
  {
    && (step == 1 ==>
          && ValidateAadhaar(Get(formData, "aadhaarNumber")) == None
          && ValidateEntrepreneurName(Get(formData, "entrepreneurName"), isLetterOrMark) == None
          && ValidateConsent(Get(formData, "consentGiven")) == None)
    && (step == 2 ==>
          && ValidatePan(Get(formData, "panNumber")) == None
          && (Truthy(Get(formData, "otp")) ==> ValidateOtp(Get(formData, "otp")) == None))
  }

  /**
   * `validateForm`: fills an errors object field by field and reports
   * whether it stayed empty.
   */
  method ValidateForm(formData: map<string, JsVal>, step: int, isLetterOrMark: char -> bool)
    returns (isValid: bool, errors: map<string, string>)
    requires WellTyped(formData, step)
    ensures errors == StepErrors(formData, step, isLetterOrMark)
    ensures isValid <==> StepPasses(formData, step, isLetterOrMark)
  {
    errors := map[];
    if step == 1 {
      var aadhaarError := ValidateAadhaar(Get(formData, "aadhaarNumber"));
      var nameError := ValidateEntrepreneurName(Get(formData, "entrepreneurName"), isLetterOrMark);
      var consentError := ValidateConsent(Get(formData, "consentGiven"));
      if aadhaarError.Some? { errors := errors["aadhaarNumber" := aadhaarError.value]; }
      AddEntry(map[], "aadhaarNumber", aadhaarError, errors);
      ghost var a := errors;
      if nameError.Some? { errors := errors["entrepreneurName" := nameError.value]; }
      AddEntry(a, "entrepreneurName", nameError, errors);
      ghost var an := errors;
      if consentError.Some? { errors := errors["consentGiven" := consentError.value]; }
      AddEntry(an, "consentGiven", consentError, errors);
    } else if step == 2 {
      var panError := ValidatePan(Get(formData, "panNumber"));
      if panError.Some? { errors := errors["panNumber" := panError.value]; }
      AddEntry(map[], "panNumber", panError, errors);
      ghost var p := errors;
      if Truthy(Get(formData, "otp")) {
        var otpError := ValidateOtp(Get(formData, "otp"));
        if otpError.Some? { errors := errors["otp" := otpError.value]; }
        AddEntry(p, "otp", otpError, errors);
      } else {
        assert errors == p + map[];
      }
    }
    isValid := |errors| == 0;
    StepValidIff(formData, step, isLetterOrMark);
  }

  /** The errors object is empty exactly when every checked field passes. */
  lemma StepValidIff(formData: map<string, JsVal>, step: int, isLetterOrMark: char -> bool)
    requires WellTyped(formData, step)
    ensures StepErrors(formData, step, isLetterOrMark) == map[] <==> StepPasses(formData, step, isLetterOrMark)
  {
    var errors := StepErrors(formData, step, isLetterOrMark);
    if errors != map[] {
      var k :| k in errors;
      assert Lookup(errors, k).Some?;
    }
  }

  /** An unsupplied OTP is never reported at step 2: only the PAN can fail. */
  lemma StepTwoOtpOptional(formData: map<string, JsVal>, isLetterOrMark: char -> bool)
    requires !Truthy(Get(formData, "otp"))
    ensures StepErrors(formData, 2, isLetterOrMark) == Entry("panNumber", ValidatePan(Get(formData, "panNumber")))
  {
    var errors := StepErrors(formData, 2, isLetterOrMark);
    assert Lookup(errors, "otp") == None;
    assert errors.Keys <= {"panNumber"};
  }

  // ---------------------------------------------------------------------
  // Keystroke formatters

  /** `formatAadhaar`: the first 12 digits, spaced as `XXXX XXXX XXXX`. */
  function FormatAadhaar(value: string): (r: string)
    ensures |r| <= 14
    ensures |Take(KeepDigits(value), 12)| <= 4 ==> r == Take(KeepDigits(value), 12)
    ensures |Take(KeepDigits(value), 12)| > 4 ==> |r| > 5 && r[4] == ' '
    ensures |Take(KeepDigits(value), 12)| > 8 ==> |r| > 10 && r[9] == ' '
    ensures var n := |Take(KeepDigits(value), 12)|; |r| == n + (if n > 8 then 2 else if n > 4 then 1 else 0)
  {
    var digits := Take(KeepDigits(value), 12);
    if |digits| > 8 then digits[..4] + " " + digits[4..8] + " " + digits[8..]
    else if |digits| > 4 then digits[..4] + " " + digits[4..]
    else digits
  }

  /** `formatPAN`: upper-cased and cut to ten characters. */
  function FormatPan(value: string): (r: string)
    ensures |r| <= 10 && (|value| >= 10 ==> |r| == 10) && (|value| < 10 ==> |r| == |value|)
    ensures forall i :: 0 <= i < |r| ==> r[i] == UpperChar(value[i])
    ensures forall i :: 0 <= i < |r| ==> !IsAsciiLower(r[i])
  {
    Take(ToUpperAscii(value), 10)
  }

  /** `formatOTP`: the first six digits. */
  function FormatOtp(value: string): (r: string)
    ensures AllDigits(r) && r <= KeepDigits(value)
    ensures |r| == if |KeepDigits(value)| < 6 then |KeepDigits(value)| else 6
  {
    Take(KeepDigits(value), 6)
  }

  lemma TakeOfDigits(s: string, n: nat)
    requires AllDigits(s)
    ensures AllDigits(Take(s, n))
  {
  }

  /** Splits the formatted Aadhaar into its digit groups and the spaces between them. */
  lemma FormatAadhaarPieces(value: string, keep: char -> bool)
    requires forall c :: IsAsciiDigit(c) ==> keep(c)
    requires !keep(' ')
    ensures Filter(FormatAadhaar(value), keep) == Take(KeepDigits(value), 12)
  {
    var digits := Take(KeepDigits(value), 12);
    assert AllDigits(digits);
    if |digits| > 8 {
      var a, b, c := digits[..4], digits[4..8], digits[8..];
      FilterKeepsAll(a, keep);
      FilterSpaceJoin(a, b, keep);
      FilterSpaceJoin(a + " " + b, c, keep);
      assert a + b + c == digits;
    } else if |digits| > 4 {
      var a, b := digits[..4], digits[4..];
      FilterKeepsAll(a, keep);
      FilterSpaceJoin(a, b, keep);
      assert a + b == digits;
    } else {
      FilterKeepsAll(digits, keep);
    }
  }

  /** Deleting the spaces from `formatAadhaar(s)` gives back the first twelve digits of `s`. */
  lemma FormatAadhaarRoundTrip(value: string)
    ensures RemoveWhitespace(FormatAadhaar(value)) == Take(KeepDigits(value), 12)
  {
    FormatAadhaarPieces(value, NotWhitespace);
  }

  /** Formatting a formatted Aadhaar number changes nothing. */
  lemma FormatAadhaarIdempotent(value: string)
    ensures FormatAadhaar(FormatAadhaar(value)) == FormatAadhaar(value)
  {
    FormatAadhaarPieces(value, IsAsciiDigit);
  }

  /** Formatting a formatted PAN changes nothing. */
  lemma FormatPanIdempotent(value: string)
    ensures FormatPan(FormatPan(value)) == FormatPan(value)
  {
  }

  /** Formatting a formatted OTP changes nothing. */
  lemma FormatOtpIdempotent(value: string)
    ensures FormatOtp(FormatOtp(value)) == FormatOtp(value)
  {
    FilterKeepsAll(FormatOtp(value), IsAsciiDigit);
  }

  /**
   * A keystroke stream holding at least twelve digits, whose first twelve are
   * not the zero or one placeholder, formats into an Aadhaar number the
   * validator accepts.
   */
  lemma FormattedAadhaarValidates(value: string)
    requires |KeepDigits(value)| >= 12
    requires !Repeats(KeepDigits(value)[..12], '0') && !Repeats(KeepDigits(value)[..12], '1')
    ensures ValidateAadhaar(Str(FormatAadhaar(value))) == None
  {
    FormatAadhaarRoundTrip(value);
  }

  /** A typed OTP with at least six digits formats into one the validator accepts. */
  lemma FormattedOtpValidates(value: string)
    requires |KeepDigits(value)| >= 6
    ensures ValidateOtp(Str(FormatOtp(value))) == None
  {
  }

  // ---------------------------------------------------------------------
  // Step gate

  /** `getNextStep`: step 1 advances to 2 exactly when its form is valid; other steps stay. */
  function GetNextStep(currentStep: int, formData: map<string, JsVal>, isLetterOrMark: char -> bool): (next: int)
    requires WellTyped(formData, currentStep)
    ensures currentStep != 1 ==> next == currentStep
    ensures currentStep == 1 ==> (next == 1 || next == 2)
    ensures currentStep == 1 ==>
              (next == 2 <==>
                 && ValidateAadhaar(Get(formData, "aadhaarNumber")) == None
                 && ValidateEntrepreneurName(Get(formData, "entrepreneurName"), isLetterOrMark) == None
                 && ValidateConsent(Get(formData, "consentGiven")) == None)
  {
    if currentStep == 1 then
      StepValidIff(formData, 1, isLetterOrMark);
      if StepErrors(formData, 1, isLetterOrMark) == map[] then 2 else 1
    else currentStep
  }

  // ---------------------------------------------------------------------
  // Behaviour pinned by the library's own expectations

  /** Surrounding whitespace never changes the verdict on a PAN. */
  lemma PanIgnoresPadding(front: string, pan: string, back: string)
    requires AllWhitespace(front) && AllWhitespace(back) && pan != ""
    ensures ValidatePan(Str(front + pan + back)) == ValidatePan(Str(pan))
  {
    TrimIgnoresPadding(front, pan, back);
  }

  /** Surrounding whitespace never changes the verdict on a name. */
  lemma NameIgnoresPadding(front: string, name: string, back: string, isLetterOrMark: char -> bool)
    requires AllWhitespace(front) && AllWhitespace(back) && name != ""
    ensures ValidateEntrepreneurName(Str(front + name + back), isLetterOrMark)
         == ValidateEntrepreneurName(Str(name), isLetterOrMark)
  {
    TrimIgnoresPadding(front, name, back);
  }

  /** Whitespace anywhere in an Aadhaar number is ignored. */
  lemma AadhaarIgnoresWhitespace(a: string, b: string, gap: string)
    requires AllWhitespace(gap) && a + b != ""
    ensures ValidateAadhaar(Str(a + gap + b)) == ValidateAadhaar(Str(a + b))
  {
    FilterAppend(a + gap, b, NotWhitespace);
    FilterAppend(a, gap, NotWhitespace);
    FilterAppend(a, b, NotWhitespace);
    FilterDropsAll(gap, NotWhitespace);
    assert RemoveWhitespace(a + gap + b) == RemoveWhitespace(a + b);
    assert Truthy(Str(a + gap + b)) && Truthy(Str(a + b));
  }

  /**
   * Twelve repeats of one digit are refused as a placeholder when the digit
   * is 0 or 1 ("000000000000", "111111111111") and accepted for any other
   * digit ("999999999999").
   */
  lemma RepeatedDigitVerdict(s: string, d: char)
    requires |s| == 12 && IsAsciiDigit(d) && Repeats(s, d)
    ensures ValidateAadhaar(Str(s)) == if d == '0' || d == '1' then Some(AadhaarPlaceholder) else None
  {
    DigitsAreUnpadded(s);
    assert s[0] == d;
  }

  /** A twelve-digit number with two different digits in it is accepted ("100000000000"). */
  lemma MixedDigitsAccepted(s: string, i: nat, j: nat)
    requires DigitsOfLength(s, 12) && i < 12 && j < 12 && s[i] != s[j]
    ensures ValidateAadhaar(Str(s)) == None
  {
    DigitsAreUnpadded(s);
  }

  /** A name with an ASCII digit in it is refused, whatever its length. */
  lemma NameWithDigitRefused(name: string, k: nat, isLetterOrMark: char -> bool)
    requires AgreesWithUnicodeOnAscii(isLetterOrMark)
    requires k < |Trim(name)| && IsAsciiDigit(Trim(name)[k])
    ensures ValidateEntrepreneurName(Str(name), isLetterOrMark) != None
  {
    assert !NameChar(Trim(name)[k], isLetterOrMark);
  }
}
