/**
 * How the rule sets of the system relate to one another: the client
 * library, the legacy client rules, the server guards, the form
 * components and the scraped rule table each check the same fields, and
 * they agree on some inputs and not on others.
 */
module CrossChecks {
  import opened Js
  import opened Patterns
  import EnhancedValidation
  import LegacyValidation
  import FormValidators
  import FormSession
  import Scraper
  import UdyamFormNew

  /** The request body holding one value under one key. */
  function Single(key: string, v: JsVal): (body: map<string, JsVal>)
    ensures Get(body, key) == v
  {
    map[key := v]
  }

  /** The legacy Aadhaar rule and the server's are the same rule. */
  lemma LegacyAadhaarIsServerAadhaar(v: JsVal)
    ensures LegacyValidation.ValidateAadhaar(v) == None <==>
              FormValidators.AadhaarAccepted(Single("aadhaarNumber", v))
  {
  }

  /**
   * On a value with no whitespace in it, an Aadhaar number the client
   * library accepts is one the server accepts.
   */
  lemma EnhancedAadhaarPassesServer(v: JsVal)
    requires forall i :: 0 <= i < |ToJsString(v)| ==> !IsJsWhitespace(ToJsString(v)[i])
    requires EnhancedValidation.ValidateAadhaar(v) == None
    ensures FormValidators.AadhaarAccepted(Single("aadhaarNumber", v))
  {
    FilterKeepsAll(ToJsString(v), NotWhitespace);
  }

  /** The converse fails: the server takes the all-zero placeholder that the client library refuses. */
  lemma ZerosOnlyServer(zeros: string)
    requires |zeros| == 12 && EnhancedValidation.Repeats(zeros, '0')
    ensures FormValidators.AadhaarAccepted(Single("aadhaarNumber", Str(zeros)))
    ensures EnhancedValidation.ValidateAadhaar(Str(zeros)) != None
  {
    EnhancedValidation.RepeatedDigitVerdict(zeros, '0');
  }

  /**
   * Nor can the whitespace condition be dropped: a number typed with a
   * space after its fourth digit passes the client library and not the
   * server.
   */
  lemma SpacedAadhaarOnlyClient(digits: string)
    requires DigitsOfLength(digits, 12)
    requires !EnhancedValidation.Repeats(digits, '0') && !EnhancedValidation.Repeats(digits, '1')
    ensures EnhancedValidation.ValidateAadhaar(Str(digits[..4] + " " + digits[4..])) == None
    ensures !FormValidators.AadhaarAccepted(Single("aadhaarNumber", Str(digits[..4] + " " + digits[4..])))
  {
    assert digits[..4] + digits[4..] == digits;
    assert AllWhitespace(" ");
    EnhancedValidation.AadhaarIgnoresWhitespace(digits[..4], digits[4..], " ");
    DigitsAreUnpadded(digits);
    var spaced := digits[..4] + " " + digits[4..];
    assert spaced[4] == ' ';
  }

  /**
   * The legacy consent rule and the server's are the same strict rule: on a
   * body whose Aadhaar number and name pass the guard, the guard hands the
   * request on exactly when the legacy rule finds no consent error, and
   * answers with its consent message exactly when the legacy rule finds one.
   */
  lemma LegacyConsentIsServerConsent(body: map<string, JsVal>)
    requires FormValidators.AadhaarAccepted(body) && FormValidators.NameAccepted(body)
    ensures FormValidators.ValidateStep1(body) == FormValidators.Next <==>
              LegacyValidation.ValidateConsent(Get(body, "consentGiven")) == None
    ensures FormValidators.ValidateStep1(body) == FormValidators.Respond(400, FormValidators.ConsentRequired) <==>
              LegacyValidation.ValidateConsent(Get(body, "consentGiven")) != None
  {
  }

  /**
   * Strict consent implies the client library's truthy consent, but not the
   * other way round: the string "yes" is consent to the library only.
   */
  lemma ConsentRuleSetsDiffer(v: JsVal)
    ensures v == Bool(true) ==> EnhancedValidation.ValidateConsent(v) == None
    ensures EnhancedValidation.ValidateConsent(Str("yes")) == None
    ensures LegacyValidation.ValidateConsent(Str("yes")) != None
    ensures FormValidators.ValidateStep1(map["aadhaarNumber" := Str("123456789012"),
                                             "entrepreneurName" := Str("Asha"),
                                             "consentGiven" := Str("yes")])
            == FormValidators.Respond(400, FormValidators.ConsentRequired)
  {
    var body := map["aadhaarNumber" := Str("123456789012"), "entrepreneurName" := Str("Asha"),
                    "consentGiven" := Str("yes")];
    assert Get(body, "aadhaarNumber") == Str("123456789012");
    assert Get(body, "entrepreneurName") == Str("Asha");
    assert Get(body, "consentGiven") == Str("yes");
    assert Trim("Asha") == "Asha" by { TrimOfUnpadded("Asha"); }
  }

  /** A step-1 form the legacy rules pass is one the server's guard hands on. */
  lemma LegacyStepOnePassesServer(formData: map<string, JsVal>)
    requires LegacyValidation.WellTyped(formData, 1)
    requires LegacyValidation.StepPasses(formData, 1)
    ensures FormValidators.ValidateStep1(formData) == FormValidators.Next
  {
    var name := Get(formData, "entrepreneurName");
    assert Trim(name.s) != "";
  }

  /** The server is the more lenient on names: a one-character name passes it and fails the legacy rules. */
  lemma OneCharacterNameOnlyServer(c: char)
    requires !IsJsWhitespace(c) && c as int < 0x10000
    ensures LegacyValidation.ValidateEntrepreneurName(Str([c])) == Some(LegacyValidation.NameTooShort)
    ensures FormValidators.NameAccepted(Single("entrepreneurName", Str([c])))
  {
    TrimOfUnpadded([c]);
  }

  /**
   * The new form formats its fields as the client library does: the OTP and
   * PAN fields hold exactly what `formatOTP` and `formatPAN` give, and the
   * Aadhaar field holds `formatAadhaar`'s result with its spaces removed.
   */
  lemma FieldFormattersAreLibraryFormatters(raw: string)
    ensures UdyamFormNew.OtpInput(raw) == EnhancedValidation.FormatOtp(raw)
    ensures UdyamFormNew.PanInput(raw) == EnhancedValidation.FormatPan(raw)
    ensures UdyamFormNew.AadhaarInput(raw) == RemoveWhitespace(EnhancedValidation.FormatAadhaar(raw))
  {
    EnhancedValidation.FormatAadhaarRoundTrip(raw);
  }

  /**
   * The scraped rule table's messages are the legacy client's for the
   * Aadhaar number and the PAN, and the new form's for the OTP.
   */
  lemma ScrapedMessagesAreClientMessages()
    ensures Scraper.ValidationRules["aadhaar"].message == LegacyValidation.AadhaarNotTwelveDigits
    ensures Scraper.ValidationRules["pan"].message == LegacyValidation.PanInvalid
    ensures Scraper.ValidationRules["otp"].message == FormSession.OtpInvalid
  {
  }
}
