/**
 * The server's request guards for the two registration steps. Each guard
 * reads the JSON body and either hands the request on (`next()`) or answers
 * 400 with a fixed message at the first failing check. A truthy
 * non-string name makes `trim` throw, which the guard does not catch.
 */
module FormValidators {
  import opened Js
  import opened Patterns

  /** What a guard does with a request. */
  datatype Outcome =
    | Next                                  // `next()`: the controller runs
    | Respond(status: int, error: string)   // `res.status(status).json({ error })`
    | Crashed                               // an exception escapes the guard

  const InvalidAadhaar := "Invalid Aadhaar number. Must be 12 digits."
  const NameRequired := "Entrepreneur name is required."
  const ConsentRequired := "Consent must be given."
  const InvalidStepOneId := "registrationStep1Id is required and must be a number."
  const InvalidPan := "Invalid PAN number format."

  /** The Aadhaar check of `validateStep1`: present and twelve digits as sent. */
  predicate AadhaarAccepted(body: map<string, JsVal>) {
    Truthy(Get(body, "aadhaarNumber")) && DigitsOfLength(ToJsString(Get(body, "aadhaarNumber")), 12)
  }

  /** The name check of `validateStep1`, for a name that does not throw: present and not blank. */
  predicate NameAccepted(body: map<string, JsVal>) {
    Get(body, "entrepreneurName").Str? && Trim(Get(body, "entrepreneurName").s) != ""
  }

  /** A truthy name that is not a string: `entrepreneurName.trim` is not a function. */
  predicate NameThrows(body: map<string, JsVal>) {
    Truthy(Get(body, "entrepreneurName")) && !Get(body, "entrepreneurName").Str?
  }

  /** `validateStep1`: Aadhaar, then name, then consent; the first failure answers. */
  function ValidateStep1(body: map<string, JsVal>): (o: Outcome)
    ensures o == Next <==>
              AadhaarAccepted(body) && NameAccepted(body) && Get(body, "consentGiven") == Bool(true)
    ensures !AadhaarAccepted(body) ==> o == Respond(400, InvalidAadhaar)
    ensures AadhaarAccepted(body) && NameThrows(body) ==> o == Crashed
    ensures AadhaarAccepted(body) && !NameThrows(body) && !NameAccepted(body) ==>
              o == Respond(400, NameRequired)
    ensures AadhaarAccepted(body) && NameAccepted(body) && Get(body, "consentGiven") != Bool(true) ==>
              o == Respond(400, ConsentRequired)
    ensures o.Respond? ==> o.status == 400 && o.error in {InvalidAadhaar, NameRequired, ConsentRequired}
  {
    var aadhaar := Get(body, "aadhaarNumber");
    var name := Get(body, "entrepreneurName");
    if !Truthy(aadhaar) || !Test(AadhaarPattern, ToJsString(aadhaar)) then Respond(400, InvalidAadhaar)
    else if !Truthy(name) then Respond(400, NameRequired)
    else if !name.Str? then Crashed
    else if Utf16Length(Trim(name.s)) == 0 then Respond(400, NameRequired)
    else if Get(body, "consentGiven") != Bool(true) then Respond(400, ConsentRequired)
    else Next
  }

  /** The id check of `validateStep2`: a number, and a truthy one (not 0). */
  predicate StepOneIdAccepted(body: map<string, JsVal>) {
    Get(body, "registrationStep1Id").Num? && Get(body, "registrationStep1Id").n != 0
  }

  /** The PAN check of `validateStep2`: present and of PAN shape as sent, in either case. */
  predicate PanAccepted(body: map<string, JsVal>) {
    Truthy(Get(body, "panNumber")) && PanShape(ToJsString(Get(body, "panNumber")))
  }

  /** `validateStep2`: the step-1 id, then the PAN; the first failure answers. */
  function ValidateStep2(body: map<string, JsVal>): (o: Outcome)
    ensures o == Next <==> StepOneIdAccepted(body) && PanAccepted(body)
    ensures !StepOneIdAccepted(body) ==> o == Respond(400, InvalidStepOneId)
    ensures StepOneIdAccepted(body) && !PanAccepted(body) ==> o == Respond(400, InvalidPan)
    ensures o != Crashed
    ensures o.Respond? ==> o.status == 400 && o.error in {InvalidStepOneId, InvalidPan}
  {
    var id := Get(body, "registrationStep1Id");
    var pan := Get(body, "panNumber");
    if !Truthy(id) || !id.Num? then Respond(400, InvalidStepOneId)
    else if !Truthy(pan) || !Test(PanPattern, ToJsString(pan)) then Respond(400, InvalidPan)
    else Next
  }

  /** The guard of step 1 only crashes on a truthy non-string name that followed a good Aadhaar number. */
  lemma Step1CrashesOnlyOnNonStringName(body: map<string, JsVal>)
    ensures ValidateStep1(body) == Crashed <==> AadhaarAccepted(body) && NameThrows(body)
  {
  }

  /** A string id is refused even when it spells a number. */
  lemma StringIdRefused(pan: string)
    ensures ValidateStep2(map["registrationStep1Id" := Str("7"), "panNumber" := Str(pan)])
            == Respond(400, InvalidStepOneId)
  {
    var body := map["registrationStep1Id" := Str("7"), "panNumber" := Str(pan)];
    assert Get(body, "registrationStep1Id") == Str("7");
  }
}
