/**
 * The behaviour both registration components share, as pure transitions on
 * a snapshot of their state: the per-field rule of `validateField`, the
 * copy-then-update of the errors object, the two submit handlers with the
 * server's reply as a parameter, the 2-second timers they schedule, and
 * the "Back" button.
 *
 * `validateField` reports whether the WHOLE copied errors object is empty,
 * not whether its own field passed, and the three step-1 checks all copy
 * the same snapshot; the consequences are proved below, beside the
 * intended behaviour.
 */
module FormSession {
  import opened Js
  import opened Patterns
  import FormValidators

  const AadhaarRequired := "Aadhaar number is required"
  const AadhaarNotTwelveDigits := "Aadhaar number must be 12 digits"
  const NameRequired := "Name of Entrepreneur is required (minimum 2 characters)"
  const PanRequired := "PAN number is required"
  const PanInvalid := "Invalid PAN number format (e.g., ABCDE1234F)"
  const OtpRequired := "OTP is required"
  const OtpInvalid := "OTP must be 6 digits"
  const ConsentRequired := "Consent must be given to proceed"

  const StepOneDone := "Step 1 completed successfully! OTP sent to your registered mobile number."
  const StepTwoDone := "Registration completed successfully! Your Udyam Registration Number will be sent via email."
  const OtpVerified := "OTP verified successfully!"
  const RegistrationFailed := "Registration failed"
  const NetworkFailure := "Network error. Please try again."

  /** The keys `validateField` has a case for. */
  const FieldNames: set<string> := {"aadhaarNumber", "entrepreneurName", "panNumber", "otp", "consentGiven"}

  /** The keys the step-1 submit checks. */
  const StepOneFields: set<string> := {"aadhaarNumber", "entrepreneurName", "consentGiven"}

  /** What one `switch` case decides: delete the field's error, set it, or (no case) nothing. */
  datatype Verdict = Unchecked | Passed | Failed(message: string)

  /** The name and PAN cases call `trim` / `toUpperCase`, which throw on a truthy non-string. */
  predicate Throwless(name: string, value: JsVal) {
    (name == "entrepreneurName" || name == "panNumber") ==> StringOrFalsy(value)
  }

  /** The `switch (name)` of `validateField`. */
  function CheckField(name: string, value: JsVal): (v: Verdict)
    requires Throwless(name, value)
    ensures v == Unchecked <==> name !in FieldNames
    ensures name == "aadhaarNumber" ==>
              (v == Passed <==> Truthy(value) && DigitsOfLength(ToJsString(value), 12))
    ensures name == "entrepreneurName" ==>
              (v == Passed <==> value.Str? && Utf16Length(Trim(value.s)) >= 2)
    ensures name == "panNumber" ==> (v == Passed <==> value.Str? && PanShape(value.s))
    ensures name == "otp" ==> (v == Passed <==> Truthy(value) && DigitsOfLength(ToJsString(value), 6))
    ensures name == "consentGiven" ==> (v == Passed <==> Truthy(value))
    ensures name == "aadhaarNumber" ==>
              (v == Failed(AadhaarRequired) <==> !Truthy(value))
              && v in {Passed, Failed(AadhaarRequired), Failed(AadhaarNotTwelveDigits)}
    ensures name == "entrepreneurName" ==> v in {Passed, Failed(NameRequired)}
    ensures name == "panNumber" ==>
              (v == Failed(PanRequired) <==> !Truthy(value))
              && v in {Passed, Failed(PanRequired), Failed(PanInvalid)}
    ensures name == "otp" ==>
              (v == Failed(OtpRequired) <==> !Truthy(value))
              && v in {Passed, Failed(OtpRequired), Failed(OtpInvalid)}
    ensures name == "consentGiven" ==> v in {Passed, Failed(ConsentRequired)}
  {
    match name
    case "aadhaarNumber" =>
      if !Truthy(value) then Failed(AadhaarRequired)
      else if !Test(AadhaarPattern, ToJsString(value)) then Failed(AadhaarNotTwelveDigits)
      else Passed
    case "entrepreneurName" =>
      if !Truthy(value) || Utf16Length(Trim(value.s)) < 2 then Failed(NameRequired) else Passed
    case "panNumber" =>
      if !Truthy(value) then Failed(PanRequired)
      else
      PanShapeIgnoresCase(value.s);
      if !Test(PanPattern, ToUpperAscii(value.s)) then Failed(PanInvalid)
      else Passed
    case "otp" =>
      if !Truthy(value) then Failed(OtpRequired)
      else if !Test(OtpPattern, ToJsString(value)) then Failed(OtpInvalid)
      else Passed
    case "consentGiven" =>
      if !Truthy(value) then Failed(ConsentRequired) else Passed
    case _ => Unchecked
  }

  /** `{ ...errors }` with the verdict applied to its own key only. */
  function UpdateErrors(errors: map<string, string>, name: string, verdict: Verdict): (r: map<string, string>)
    ensures verdict == Passed ==> Lookup(r, name) == None
    ensures verdict.Failed? ==> Lookup(r, name) == Some(verdict.message)
    ensures verdict == Unchecked ==> r == errors
    ensures forall k :: k != name ==> Lookup(r, k) == Lookup(errors, k)
  {
    match verdict
    case Unchecked => errors
    case Passed => errors - {name}
    case Failed(message) => errors[name := message]
  }

  /**
   * `validateField(name, value)`: the errors object with this field's
   * verdict applied and every other key as it was, and whether that object
   * is empty.
   */
  function ValidateField(errors: map<string, string>, name: string, value: JsVal): (r: (map<string, string>, bool))
    requires Throwless(name, value)
    ensures r.1 <==> r.0 == map[]
    ensures CheckField(name, value) == Passed ==> name !in r.0
    ensures CheckField(name, value).Failed? ==> Lookup(r.0, name) == Some(CheckField(name, value).message)
    ensures forall k :: k != name ==> Lookup(r.0, k) == Lookup(errors, k)
    ensures name !in FieldNames ==> r.0 == errors
  {
    var newErrors := UpdateErrors(errors, name, CheckField(name, value));
    (newErrors, newErrors == map[])
  }

  /**
   * For a field `validateField` knows, it answers true exactly when the
   * field passes AND no other key is in the errors object: any other
   * field's error, or a `general` one, makes every field look invalid.
   */
  lemma {:induction false} ValidateFieldAnswer(errors: map<string, string>, name: string, value: JsVal)
    requires Throwless(name, value) && name in FieldNames
    ensures ValidateField(errors, name, value).1 <==>
              CheckField(name, value) == Passed && errors.Keys <= {name}
  {
    var r := ValidateField(errors, name, value).0;
    if CheckField(name, value) != Passed {
      assert Lookup(r, name).Some?;
    } else if !(errors.Keys <= {name}) {
      var k :| k in errors && k != name;
      assert Lookup(r, k) == Lookup(errors, k);
    } else {
      assert r == errors - {name};
      assert r.Keys == errors.Keys - {name} == {};
    }
  }

  // ---------------------------------------------------------------------
  // Component state and the server

  /** A 2-second `setTimeout` callback still to run. */
  datatype Timer =
    | AdvanceToStep2   // after step 1 succeeded: `setStep(2); setSuccess("")`
    | ClearSuccess     // after the OTP was accepted: `setSuccess("")`

  /** `step`, `form`, `errors` and `success` of a component, and its pending timers. */
  datatype Session = Session(
    step: int,
    form: map<string, JsVal>,
    errors: map<string, string>,
    success: string,
    timers: seq<Timer>)

  /** The state of a freshly mounted component. */
  function Initial(): (s: Session)
    ensures s.step == 1 && s.errors == map[] && s.success == "" && s.timers == []
    ensures Get(s.form, "consentGiven") == Bool(false)
    ensures forall f :: f in FieldNames && f != "consentGiven" ==> Get(s.form, f) == Str("")
  {
    Session(1, map["aadhaarNumber" := Str(""), "entrepreneurName" := Str(""), "consentGiven" := Bool(false),
                   "panNumber" := Str(""), "otp" := Str("")], map[], "", [])
  }

  /**
   * What the server's reply does to the handler: `res.ok` with the created
   * registration's id, not ok with the body's `error` (if any), or an
   * exception from `fetch` or `res.json()`.
   */
  datatype Reply = Ok(registrationId: JsVal) | NotOk(error: Option<string>) | Thrown

  /** The JSON bodies the two handlers post. */
  datatype Request =
    | Step1Request(aadhaarNumber: JsVal, entrepreneurName: JsVal, consentGiven: JsVal)
    | Step2Request(registrationStep1Id: JsVal, panNumber: string)

  /** The request body as the server's guards read it. */
  function Body(req: Request): (body: map<string, JsVal>)
    ensures req.Step1Request? ==>
              && Get(body, "aadhaarNumber") == req.aadhaarNumber
              && Get(body, "entrepreneurName") == req.entrepreneurName
              && Get(body, "consentGiven") == req.consentGiven
    ensures req.Step2Request? ==>
              Get(body, "registrationStep1Id") == req.registrationStep1Id && Get(body, "panNumber") == Str(req.panNumber)
  {
    match req
    case Step1Request(a, n, c) => map["aadhaarNumber" := a, "entrepreneurName" := n, "consentGiven" := c]
    case Step2Request(id, pan) => map["registrationStep1Id" := id, "panNumber" := Str(pan)]
  }

  /** A submit: the state it leaves and the request it posted, if any. */
  datatype Submission = Submission(next: Session, sent: Option<Request>)

  /** `data.error || "Registration failed"` */
  function FailureMessage(error: Option<string>): (m: string)
    ensures m != ""
    ensures error.Some? && error.value != "" ==> m == error.value
    ensures error.None? || error.value == "" ==> m == RegistrationFailed
  {
    if error.Some? && error.value != "" then error.value else RegistrationFailed
  }

  /** The values the components keep in the name, PAN and consent fields. */
  predicate Typed(form: map<string, JsVal>) {
    && StringOrFalsy(Get(form, "entrepreneurName"))
    && StringOrFalsy(Get(form, "panNumber"))
    && (Get(form, "consentGiven").Bool? || Get(form, "consentGiven").Undefined?)
  }

  /** The step-1 verdicts on the current form. */
  function StepOneVerdicts(form: map<string, JsVal>): (Verdict, Verdict, Verdict)
    requires Typed(form)
  {
    (CheckField("aadhaarNumber", Get(form, "aadhaarNumber")),
     CheckField("entrepreneurName", Get(form, "entrepreneurName")),
     CheckField("consentGiven", Get(form, "consentGiven")))
  }

  predicate StepOnePasses(form: map<string, JsVal>)
    requires Typed(form)
  {
    StepOneVerdicts(form) == (Passed, Passed, Passed)
  }

  /** The outcome of the request, once it was posted. */
  function AfterStep1(s: Session, reply: Reply): (t: Session)
    ensures t.step == s.step
    ensures reply.Ok? ==>
              && t.form == s.form["registrationStep1Id" := reply.registrationId]
              && t.errors == s.errors && t.success == StepOneDone
              && t.timers == s.timers + [AdvanceToStep2]
    ensures !reply.Ok? ==> t.form == s.form && t.success == s.success && t.timers == s.timers
    ensures reply.NotOk? ==> t.errors == map["general" := FailureMessage(reply.error)]
    ensures reply.Thrown? ==> t.errors == map["general" := NetworkFailure]
  {
    match reply
    case Ok(id) =>
      s.(form := s.form["registrationStep1Id" := id], success := StepOneDone, timers := s.timers + [AdvanceToStep2])
    case NotOk(error) => s.(errors := map["general" := FailureMessage(error)])
    case Thrown => s.(errors := map["general" := NetworkFailure])
  }

  /**
   * `handleSubmitStep1`: the three `validateField` calls each copy the same
   * `errors`, the last `setErrors` (the consent one) is what remains, and
   * the request is posted only if all three answered true.
   */
  function SubmitStep1(s: Session, reply: Reply): (r: Submission)
    requires Typed(s.form)
    ensures r.sent.Some? ==> r.sent.value == Step1Request(Get(s.form, "aadhaarNumber"),
                               Get(s.form, "entrepreneurName"), Get(s.form, "consentGiven"))
    ensures r.sent.None? ==> r.next == s.(errors := ValidateField(s.errors, "consentGiven", Get(s.form, "consentGiven")).0)
    ensures r.sent.Some? ==> r.next == AfterStep1(s.(errors := map[]), reply)
  {
    var (a, aOk) := ValidateField(s.errors, "aadhaarNumber", Get(s.form, "aadhaarNumber"));
    var (n, nOk) := ValidateField(s.errors, "entrepreneurName", Get(s.form, "entrepreneurName"));
    var (c, cOk) := ValidateField(s.errors, "consentGiven", Get(s.form, "consentGiven"));
    if !aOk || !nOk || !cOk then Submission(s.(errors := c), None)
    else
      var req := Step1Request(Get(s.form, "aadhaarNumber"), Get(s.form, "entrepreneurName"), Get(s.form, "consentGiven"));
      Submission(AfterStep1(s.(errors := c), reply), Some(req))
  }

  /** Step 1 is posted exactly when the errors object was empty and all three fields pass. */
  lemma Step1SentIff(s: Session, reply: Reply)
    requires Typed(s.form)
    ensures SubmitStep1(s, reply).sent.Some? <==> s.errors == map[] && StepOnePasses(s.form)
  {
    ValidateFieldAnswer(s.errors, "aadhaarNumber", Get(s.form, "aadhaarNumber"));
    ValidateFieldAnswer(s.errors, "entrepreneurName", Get(s.form, "entrepreneurName"));
    ValidateFieldAnswer(s.errors, "consentGiven", Get(s.form, "consentGiven"));
    if s.errors.Keys <= {"aadhaarNumber"} && s.errors.Keys <= {"entrepreneurName"} {
      assert s.errors.Keys == {};
    }
  }

  /** Whatever step 1 posts passes the server's `validateStep1` guard. */
  lemma Step1SentPassesServer(s: Session, reply: Reply)
    requires Typed(s.form)
    requires SubmitStep1(s, reply).sent.Some?
    ensures FormValidators.ValidateStep1(Body(SubmitStep1(s, reply).sent.value)) == FormValidators.Next
  {
    Step1SentIff(s, reply);
    var body := Body(SubmitStep1(s, reply).sent.value);
    assert Utf16Length(Trim(Get(body, "entrepreneurName").s)) >= 2;
  }

  /** The server's reply to `/step2`. */
  function AfterStep2(s: Session, reply: Reply): (t: Session)
    ensures t.step == s.step && t.form == s.form && t.timers == s.timers
    ensures reply.Ok? ==> t.success == StepTwoDone && t.errors == s.errors
    ensures !reply.Ok? ==> t.success == s.success
    ensures reply.NotOk? ==> t.errors == map["general" := FailureMessage(reply.error)]
    ensures reply.Thrown? ==> t.errors == map["general" := NetworkFailure]
  {
    match reply
    case Ok(_) => s.(success := StepTwoDone)
    case NotOk(error) => s.(errors := map["general" := FailureMessage(error)])
    case Thrown => s.(errors := map["general" := NetworkFailure])
  }

  /** `handleSubmitStep2`: validate the PAN, then post the step-1 id and the upper-cased PAN. */
  function SubmitStep2(s: Session, reply: Reply): (r: Submission)
    requires Typed(s.form)
    ensures r.sent.Some? <==> s.errors.Keys <= {"panNumber"} && CheckField("panNumber", Get(s.form, "panNumber")) == Passed
    ensures r.sent.Some? ==>
              && r.sent.value.Step2Request?
              && r.sent.value.registrationStep1Id == Get(s.form, "registrationStep1Id")
              && Get(s.form, "panNumber").Str?
              && r.sent.value.panNumber == ToUpperAscii(Get(s.form, "panNumber").s)
    ensures r.sent.None? ==> r.next == s.(errors := ValidateField(s.errors, "panNumber", Get(s.form, "panNumber")).0)
    ensures r.sent.Some? ==> r.next == AfterStep2(s.(errors := map[]), reply)
  {
    var pan := Get(s.form, "panNumber");
    ValidateFieldAnswer(s.errors, "panNumber", pan);
    var (p, ok) := ValidateField(s.errors, "panNumber", pan);
    if !ok then Submission(s.(errors := p), None)
    else
      var req := Step2Request(Get(s.form, "registrationStep1Id"), ToUpperAscii(pan.s));
      Submission(AfterStep2(s.(errors := p), reply), Some(req))
  }

  /** The PAN step 2 posts passes the server's PAN check, and with a numeric id the whole guard. */
  lemma Step2SentPassesServer(s: Session, reply: Reply)
    requires Typed(s.form)
    requires SubmitStep2(s, reply).sent.Some?
    ensures FormValidators.PanAccepted(Body(SubmitStep2(s, reply).sent.value))
    ensures Get(s.form, "registrationStep1Id").Num? && Get(s.form, "registrationStep1Id").n != 0 ==>
              FormValidators.ValidateStep2(Body(SubmitStep2(s, reply).sent.value)) == FormValidators.Next
  {
    var pan := Get(s.form, "panNumber").s;
    PanShapeIgnoresCase(pan);
    assert ToUpperAscii(pan) != "";
  }

  /** `handleValidateOtp`: validate the OTP; if the errors object is empty, report success for 2 seconds. */
  function ValidateOtp(s: Session): (t: Session)
    ensures t.step == s.step && t.form == s.form
    ensures t.errors == ValidateField(s.errors, "otp", Get(s.form, "otp")).0
    ensures t.errors == map[] ==> t.success == OtpVerified && t.timers == s.timers + [ClearSuccess]
    ensures t.errors != map[] ==> t.success == s.success && t.timers == s.timers
  {
    var (o, ok) := ValidateField(s.errors, "otp", Get(s.form, "otp"));
    if ok then s.(errors := o, success := OtpVerified, timers := s.timers + [ClearSuccess])
    else s.(errors := o)
  }

  /** The `i`-th pending timer runs. */
  function FireTimer(s: Session, i: nat): (t: Session)
    requires i < |s.timers|
    ensures |t.timers| == |s.timers| - 1 && multiset(t.timers) == multiset(s.timers) - multiset{s.timers[i]}
    ensures t.form == s.form && t.errors == s.errors && t.success == ""
    ensures t.step == if s.timers[i] == AdvanceToStep2 then 2 else s.step
  {
    var rest := s.timers[..i] + s.timers[i + 1..];
    assert s.timers == s.timers[..i] + [s.timers[i]] + s.timers[i + 1..];
    match s.timers[i]
    case AdvanceToStep2 => s.(step := 2, success := "", timers := rest)
    case ClearSuccess => s.(success := "", timers := rest)
  }

  /** `handleInputChange(name, value)`: store the value, then validate that field. */
  function InputChange(s: Session, name: string, value: JsVal): (t: Session)
    requires Throwless(name, value)
    ensures t.form == s.form[name := value]
    ensures t.errors == ValidateField(s.errors, name, value).0
    ensures t.step == s.step && t.success == s.success && t.timers == s.timers
  {
    s.(form := s.form[name := value], errors := UpdateErrors(s.errors, name, CheckField(name, value)))
  }

  /** The "Back" button: `setStep(1)`. */
  function Back(s: Session): (t: Session)
    ensures t.step == 1 && t.form == s.form && t.errors == s.errors
    ensures t.success == s.success && t.timers == s.timers
  {
    s.(step := 1)
  }

  // ---------------------------------------------------------------------
  // What every reachable state satisfies

  /**
   * Steps are 1 and 2, the fields keep their types, and step 2 is only
   * reached (or scheduled) once step 1's id has been stored.
   */
  predicate Consistent(s: Session) {
    && Typed(s.form)
    && (s.step == 1 || s.step == 2)
    && ((s.step == 2 || AdvanceToStep2 in s.timers) ==> "registrationStep1Id" in s.form)
  }

  lemma InitialConsistent()
    ensures Consistent(Initial())
  {
    assert Get(Initial().form, "entrepreneurName") == Str("");
    assert Get(Initial().form, "panNumber") == Str("");
  }

  lemma SubmitStep1Consistent(s: Session, reply: Reply)
    requires Consistent(s)
    ensures Consistent(SubmitStep1(s, reply).next)
  {
    var t := SubmitStep1(s, reply).next;
    if AdvanceToStep2 in t.timers && AdvanceToStep2 !in s.timers {
      assert "registrationStep1Id" in t.form;
    }
  }

  lemma SubmitStep2Consistent(s: Session, reply: Reply)
    requires Consistent(s)
    ensures Consistent(SubmitStep2(s, reply).next)
  {
  }

  lemma ValidateOtpConsistent(s: Session)
    requires Consistent(s)
    ensures Consistent(ValidateOtp(s))
  {
    var t := ValidateOtp(s);
    if AdvanceToStep2 in t.timers {
      assert AdvanceToStep2 in s.timers;
    }
  }

  lemma FireTimerConsistent(s: Session, i: nat)
    requires Consistent(s) && i < |s.timers|
    ensures Consistent(FireTimer(s, i))
  {
    var t := FireTimer(s, i);
    if AdvanceToStep2 in t.timers {
      assert AdvanceToStep2 in multiset(t.timers);
    }
  }

  /** Keeps the name and PAN as strings and the consent as a boolean. */
  predicate FitsField(name: string, value: JsVal) {
    && ((name == "entrepreneurName" || name == "panNumber") ==> value.Str?)
    && (name == "consentGiven" ==> value.Bool?)
  }

  lemma InputChangeConsistent(s: Session, name: string, value: JsVal)
    requires Consistent(s) && FitsField(name, value)
    ensures Consistent(InputChange(s, name, value))
  {
    var t := InputChange(s, name, value);
    assert Get(t.form, "entrepreneurName") == (if name == "entrepreneurName" then value else Get(s.form, "entrepreneurName"));
    assert Get(t.form, "panNumber") == (if name == "panNumber" then value else Get(s.form, "panNumber"));
    assert Get(t.form, "consentGiven") == (if name == "consentGiven" then value else Get(s.form, "consentGiven"));
  }

  lemma BackConsistent(s: Session)
    requires Consistent(s)
    ensures Consistent(Back(s))
  {
  }

  /** A submit never changes the step: only the timer scheduled by a successful step 1 does. */
  lemma SubmitsKeepStep(s: Session, reply: Reply)
    requires Typed(s.form)
    ensures SubmitStep1(s, reply).next.step == s.step
    ensures SubmitStep2(s, reply).next.step == s.step
  {
  }

  // ---------------------------------------------------------------------
  // Findings

  /**
   * After a failed call to the server the errors object is `{ general }`.
   * No `validateField` call removes that key, so no later step-1 or
   * step-2 submit posts anything, however the fields are corrected.
   */
  lemma RetryBlockedAfterFailure(s: Session, name: string, value: JsVal, reply: Reply)
    requires Typed(s.form) && "general" in s.errors && Throwless(name, value)
    ensures "general" in ValidateField(s.errors, name, value).0
    ensures SubmitStep1(s, reply).sent.None? && "general" in SubmitStep1(s, reply).next.errors
    ensures SubmitStep2(s, reply).sent.None? && "general" in SubmitStep2(s, reply).next.errors
  {
    assert Lookup(ValidateField(s.errors, name, value).0, "general") == Lookup(s.errors, "general");
    Step1SentIff(s, reply);
    var c := ValidateField(s.errors, "consentGiven", Get(s.form, "consentGiven")).0;
    assert Lookup(c, "general") == Lookup(s.errors, "general");
    var p := ValidateField(s.errors, "panNumber", Get(s.form, "panNumber")).0;
    assert Lookup(p, "general") == Lookup(s.errors, "general");
  }

  /** A refused or unreachable server leaves exactly the `general` key. */
  lemma FailureLeavesGeneral(s: Session, reply: Reply)
    requires Typed(s.form) && !reply.Ok?
    ensures SubmitStep1(s, reply).sent.Some? ==> "general" in SubmitStep1(s, reply).next.errors
    ensures SubmitStep2(s, reply).sent.Some? ==> "general" in SubmitStep2(s, reply).next.errors
  {
  }

  /**
   * The submit only keeps the consent check's errors object: a fresh
   * component whose consent box is ticked but whose Aadhaar number and
   * name are empty posts nothing and shows no message at all.
   */
  lemma SilentRejection(reply: Reply)
    ensures var s := Initial().(form := Initial().form["consentGiven" := Bool(true)]);
            SubmitStep1(s, reply).sent.None? && SubmitStep1(s, reply).next.errors == map[]
  {
    var s := Initial().(form := Initial().form["consentGiven" := Bool(true)]);
    assert Get(s.form, "aadhaarNumber") == Str("");
    assert Get(s.form, "consentGiven") == Bool(true);
    assert CheckField("aadhaarNumber", Str("")) == Failed(AadhaarRequired);
  }

  /**
   * The evident intent of `handleSubmitStep1`: every field's verdict is
   * applied to the errors object, and the request is posted when the three
   * fields pass, whatever else the errors object holds.
   */
  function SubmitStep1Intended(s: Session, reply: Reply): (r: Submission)
    requires Typed(s.form)
    ensures r.next.step == s.step
    ensures r.sent.Some? ==> r.sent.value == Step1Request(Get(s.form, "aadhaarNumber"),
                               Get(s.form, "entrepreneurName"), Get(s.form, "consentGiven"))
    ensures r.sent.None? ==>
              forall k :: k !in StepOneFields ==> Lookup(r.next.errors, k) == Lookup(s.errors, k)
  {
    var (va, vn, vc) := StepOneVerdicts(s.form);
    var errors := UpdateErrors(UpdateErrors(UpdateErrors(s.errors, "aadhaarNumber", va), "entrepreneurName", vn), "consentGiven", vc);
    if va != Passed || vn != Passed || vc != Passed then Submission(s.(errors := errors), None)
    else
      var req := Step1Request(Get(s.form, "aadhaarNumber"), Get(s.form, "entrepreneurName"), Get(s.form, "consentGiven"));
      Submission(AfterStep1(s.(errors := errors), reply), Some(req))
  }

  /**
   * The evident intent of `handleSubmitStep2`: the PAN's verdict is applied
   * to the errors object, and the request is posted when the PAN passes,
   * whatever else the errors object holds.
   */
  function SubmitStep2Intended(s: Session, reply: Reply): (r: Submission)
    requires Typed(s.form)
    ensures r.next.step == s.step && r.next.form == s.form
    ensures r.sent.Some? ==>
              && Get(s.form, "panNumber").Str?
              && r.sent.value == Step2Request(Get(s.form, "registrationStep1Id"), ToUpperAscii(Get(s.form, "panNumber").s))
    ensures r.sent.None? ==> forall k :: k != "panNumber" ==> Lookup(r.next.errors, k) == Lookup(s.errors, k)
  {
    var pan := Get(s.form, "panNumber");
    var v := CheckField("panNumber", pan);
    var errors := UpdateErrors(s.errors, "panNumber", v);
    if v != Passed then Submission(s.(errors := errors), None)
    else
      var req := Step2Request(Get(s.form, "registrationStep1Id"), ToUpperAscii(pan.s));
      Submission(AfterStep2(s.(errors := errors), reply), Some(req))
  }

  /**
   * Intended: on either step posting depends on that step's fields only,
   * so a retry after a failed call (a `general` key in the errors object)
   * goes through once the fields are corrected.
   */
  lemma IntendedSentIff(s: Session, reply: Reply)
    requires Typed(s.form)
    ensures SubmitStep1Intended(s, reply).sent.Some? <==> StepOnePasses(s.form)
    ensures SubmitStep2Intended(s, reply).sent.Some? <==> CheckField("panNumber", Get(s.form, "panNumber")) == Passed
    ensures SubmitStep2Intended(s, reply).sent.None? ==>
              Lookup(SubmitStep2Intended(s, reply).next.errors, "panNumber")
              == Some(CheckField("panNumber", Get(s.form, "panNumber")).message)
  {
  }

  /** Intended: whatever the corrected step-2 submit posts passes the server's PAN check. */
  lemma IntendedStep2PassesServer(s: Session, reply: Reply)
    requires Typed(s.form)
    requires SubmitStep2Intended(s, reply).sent.Some?
    ensures FormValidators.PanAccepted(Body(SubmitStep2Intended(s, reply).sent.value))
  {
    var pan := Get(s.form, "panNumber").s;
    PanShapeIgnoresCase(pan);
    assert ToUpperAscii(pan) != "";
  }

  /** Intended: a rejected submit shows the message of every failing field and clears every passing one. */
  lemma IntendedShowsEveryField(s: Session, reply: Reply)
    requires Typed(s.form)
    ensures var r := SubmitStep1Intended(s, reply);
            var (va, vn, vc) := StepOneVerdicts(s.form);
            r.sent.None? ==>
              && Lookup(r.next.errors, "aadhaarNumber") == (if va.Failed? then Some(va.message) else None)
              && Lookup(r.next.errors, "entrepreneurName") == (if vn.Failed? then Some(vn.message) else None)
              && Lookup(r.next.errors, "consentGiven") == (if vc.Failed? then Some(vc.message) else None)
  {
    var (va, vn, vc) := StepOneVerdicts(s.form);
    var e1 := UpdateErrors(s.errors, "aadhaarNumber", va);
    var e2 := UpdateErrors(e1, "entrepreneurName", vn);
    var e3 := UpdateErrors(e2, "consentGiven", vc);
    assert Lookup(e3, "aadhaarNumber") == Lookup(e2, "aadhaarNumber") == Lookup(e1, "aadhaarNumber");
    assert Lookup(e3, "entrepreneurName") == Lookup(e2, "entrepreneurName");
  }

  /** Intended: the same fresh component as in `SilentRejection` shows both missing fields. */
  lemma IntendedReportsSilentCase(reply: Reply)
    ensures var s := Initial().(form := Initial().form["consentGiven" := Bool(true)]);
            var r := SubmitStep1Intended(s, reply);
            r.sent.None? && r.next.errors.Keys == {"aadhaarNumber", "entrepreneurName"}
  {
    var s := Initial().(form := Initial().form["consentGiven" := Bool(true)]);
    assert Get(s.form, "aadhaarNumber") == Str("");
    assert Get(s.form, "entrepreneurName") == Str("");
    assert Get(s.form, "consentGiven") == Bool(true);
    IntendedShowsEveryField(s, reply);
  }
}
