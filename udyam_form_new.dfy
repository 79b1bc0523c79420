/**
 * The newer registration component: every keystroke is formatted, stored
 * and validated at once; step 1 posts the Aadhaar number, name and consent,
 * step 2 offers an OTP check and posts the PAN, and a "Back" button
 * returns to step 1. The component's state hooks are the fields of
 * `Component`; each handler is proved to make exactly the transition that
 * `FormSession` defines, so every property proved there holds of it.
 */
module UdyamFormNew {
  import opened Js
  import opened Patterns
  import opened FormSession

  /** `e.target.value.replace(/\D/g, '').slice(0, 12)` */
  function AadhaarInput(raw: string): (v: string)
    ensures AllDigits(v) && v <= KeepDigits(raw)
    ensures |v| == if |KeepDigits(raw)| < 12 then |KeepDigits(raw)| else 12
  {
    Take(KeepDigits(raw), 12)
  }

  /** `e.target.value.replace(/\D/g, '').slice(0, 6)` */
  function OtpInput(raw: string): (v: string)
    ensures AllDigits(v) && v <= KeepDigits(raw)
    ensures |v| == if |KeepDigits(raw)| < 6 then |KeepDigits(raw)| else 6
  {
    Take(KeepDigits(raw), 6)
  }

  /** `e.target.value.toUpperCase().slice(0, 10)` */
  function PanInput(raw: string): (v: string)
    ensures |v| == if |raw| < 10 then |raw| else 10
    ensures forall i :: 0 <= i < |v| ==> v[i] == UpperChar(raw[i])
  {
    Take(ToUpperAscii(raw), 10)
  }

  /** A formatted Aadhaar field passes its check exactly when at least twelve digits were typed. */
  lemma AadhaarInputCheck(raw: string)
    ensures CheckField("aadhaarNumber", Str(AadhaarInput(raw))) == Passed <==> |KeepDigits(raw)| >= 12
  {
  }

  /** A formatted OTP field passes its check exactly when at least six digits were typed. */
  lemma OtpInputCheck(raw: string)
    ensures CheckField("otp", Str(OtpInput(raw))) == Passed <==> |KeepDigits(raw)| >= 6
  {
  }

  /** A formatted PAN field passes exactly when the first ten characters typed have PAN shape. */
  lemma PanInputCheck(raw: string)
    ensures CheckField("panNumber", Str(PanInput(raw))) == Passed <==> |raw| >= 10 && PanShape(raw[..10])
  {
    if |raw| >= 10 {
      PanShapeIgnoresCase(raw[..10]);
      assert PanInput(raw) == ToUpperAscii(raw[..10]);
    }
  }

  /** The component's state hooks (`loading` is left out: requests complete within a handler). */
  class Component {
    var step: int
    var form: map<string, JsVal>
    var errors: map<string, string>
    var success: string
    var timers: seq<Timer>

    function State(): Session
      reads this
    {
      Session(step, form, errors, success, timers)
    }

    ghost predicate Valid()
      reads this
    {
      Consistent(State())
    }

    /** The `useState` initial values. */
    constructor ()
      ensures State() == Initial() && Valid()
    {
      step := 1;
      form := map["aadhaarNumber" := Str(""), "entrepreneurName" := Str(""), "consentGiven" := Bool(false),
                  "panNumber" := Str(""), "otp" := Str("")];
      errors := map[];
      success := "";
      timers := [];
      InitialConsistent();
    }

    /**
     * `validateField(name, value)`, run by a handler of the render whose
     * errors object was `rendered`: the copy, updated for `name`, replaces
     * the errors, and the answer is whether it is empty.
     */
    method ValidateField(rendered: map<string, string>, name: string, value: JsVal) returns (ok: bool)
      requires Throwless(name, value)
      modifies this
      ensures (errors, ok) == FormSession.ValidateField(rendered, name, value)
      ensures step == old(step) && form == old(form) && success == old(success) && timers == old(timers)
    {
      var newErrors := UpdateErrors(rendered, name, CheckField(name, value));
      errors := newErrors;
      ok := |newErrors| == 0;
    }

    /** `handleInputChange(name, value)` */
    method HandleInputChange(name: string, value: JsVal)
      requires Valid() && FitsField(name, value)
      modifies this
      ensures State() == InputChange(old(State()), name, value) && Valid()
    {
      var rendered := errors;
      form := form[name := value];
      var _ := ValidateField(rendered, name, value);
      InputChangeConsistent(old(State()), name, value);
    }

    method OnAadhaarInput(raw: string)
      requires Valid()
      modifies this
      ensures State() == InputChange(old(State()), "aadhaarNumber", Str(AadhaarInput(raw))) && Valid()
    {
      HandleInputChange("aadhaarNumber", Str(AadhaarInput(raw)));
    }

    method OnNameInput(raw: string)
      requires Valid()
      modifies this
      ensures State() == InputChange(old(State()), "entrepreneurName", Str(raw)) && Valid()
    {
      HandleInputChange("entrepreneurName", Str(raw));
    }

    method OnConsentToggle(checked: bool)
      requires Valid()
      modifies this
      ensures State() == InputChange(old(State()), "consentGiven", Bool(checked)) && Valid()
    {
      HandleInputChange("consentGiven", Bool(checked));
    }

    method OnOtpInput(raw: string)
      requires Valid()
      modifies this
      ensures State() == InputChange(old(State()), "otp", Str(OtpInput(raw))) && Valid()
    {
      HandleInputChange("otp", Str(OtpInput(raw)));
    }

    method OnPanInput(raw: string)
      requires Valid()
      modifies this
      ensures State() == InputChange(old(State()), "panNumber", Str(PanInput(raw))) && Valid()
    {
      HandleInputChange("panNumber", Str(PanInput(raw)));
    }

    /** `handleSubmitStep1`, with the server's reply to the post (if one is made) as `reply`. */
    method HandleSubmitStep1(reply: Reply) returns (sent: Option<Request>)
      requires Valid()
      modifies this
      ensures Submission(State(), sent) == SubmitStep1(old(State()), reply) && Valid()
    {
      var rendered := errors;
      var isAadhaarValid := ValidateField(rendered, "aadhaarNumber", Get(form, "aadhaarNumber"));
      var isNameValid := ValidateField(rendered, "entrepreneurName", Get(form, "entrepreneurName"));
      var isConsentValid := ValidateField(rendered, "consentGiven", Get(form, "consentGiven"));
      if !isAadhaarValid || !isNameValid || !isConsentValid {
        sent := None;
        return;
      }
      sent := Some(Step1Request(Get(form, "aadhaarNumber"), Get(form, "entrepreneurName"), Get(form, "consentGiven")));
      match reply {
        case Ok(id) =>
          form := form["registrationStep1Id" := id];
          success := StepOneDone;
          timers := timers + [AdvanceToStep2];
        case NotOk(error) =>
          errors := map["general" := FailureMessage(error)];
        case Thrown =>
          errors := map["general" := NetworkFailure];
      }
      SubmitStep1Consistent(old(State()), reply);
    }

    /** `handleValidateOtp` (the simulated one-second check always succeeds). */
    method HandleValidateOtp()
      requires Valid()
      modifies this
      ensures State() == FormSession.ValidateOtp(old(State())) && Valid()
    {
      var ok := ValidateField(errors, "otp", Get(form, "otp"));
      if !ok {
        return;
      }
      success := OtpVerified;
      timers := timers + [ClearSuccess];
      ValidateOtpConsistent(old(State()));
    }

    /** `handleSubmitStep2`, with the server's reply to the post (if one is made) as `reply`. */
    method HandleSubmitStep2(reply: Reply) returns (sent: Option<Request>)
      requires Valid()
      modifies this
      ensures Submission(State(), sent) == SubmitStep2(old(State()), reply) && Valid()
    {
      var pan := Get(form, "panNumber");
      var ok := ValidateField(errors, "panNumber", pan);
      if !ok {
        sent := None;
        return;
      }
      sent := Some(Step2Request(Get(form, "registrationStep1Id"), ToUpperAscii(pan.s)));
      match reply {
        case Ok(_) =>
          success := StepTwoDone;
        case NotOk(error) =>
          errors := map["general" := FailureMessage(error)];
        case Thrown =>
          errors := map["general" := NetworkFailure];
      }
      SubmitStep2Consistent(old(State()), reply);
    }

    /** The `i`-th pending `setTimeout` callback runs. */
    method RunTimer(i: nat)
      requires Valid() && i < |timers|
      modifies this
      ensures State() == FireTimer(old(State()), i) && Valid()
    {
      if timers[i] == AdvanceToStep2 {
        step := 2;
      }
      success := "";
      timers := timers[..i] + timers[i + 1..];
      FireTimerConsistent(old(State()), i);
    }

    /** The "Back" button of step 2. */
    method BackToStep1()
      requires Valid()
      modifies this
      ensures State() == Back(old(State())) && Valid()
    {
      step := 1;
      BackConsistent(old(State()));
    }
  }
}
