/**
 * The older, schema-driven registration component: it renders the fields
 * of a schema fetched from the server (or of a built-in fallback when the
 * fetch fails), stores input without validating it, validates only on
 * submit, and asks for a PIN-code lookup when a six-unit `pinCode` is
 * typed. Its submit handlers and timer are those of `FormSession`.
 */
module UdyamForm {
  import opened Js
  import opened Patterns
  import opened FormSession

  /** `validation: { regex?, required, message }` of a schema field. */
  datatype Rule = Rule(regex: Option<string>, required: bool, message: string)

  /** `{ name, label, type, validation }` */
  datatype FieldSpec = FieldSpec(name: string, labelText: string, inputType: string, validation: Rule)

  /** `{ step1: { fields }, step2: { fields } }` */
  datatype Schema = Schema(step1: seq<FieldSpec>, step2: seq<FieldSpec>)

  /** The schema the component falls back to when `/schema` cannot be fetched. */
  const FallbackSchema := Schema(
    [ FieldSpec("aadhaarNumber", "Aadhaar Number", "text",
                Rule(Some("^[0-9]{12}$"), true, "Aadhaar number must be 12 digits.")),
      FieldSpec("entrepreneurName", "Name of Entrepreneur", "text",
                Rule(None, true, "Entrepreneur name is required.")),
      FieldSpec("consentGiven", "Consent", "checkbox",
                Rule(None, true, "Consent must be given.")) ],
    [ FieldSpec("panNumber", "PAN Number", "text",
                Rule(Some("^[A-Za-z]{5}[0-9]{4}[A-Za-z]{1}$"), true, "PAN number format is invalid.")) ])

  function Names(fields: seq<FieldSpec>): (r: seq<string>)
    ensures |r| == |fields|
    ensures forall i :: 0 <= i < |fields| ==> r[i] == fields[i].name
  {
    if fields == [] then [] else [fields[0].name] + Names(fields[1..])
  }

  /** The name and PAN are text inputs and the consent is a checkbox, so `Typed` is kept. */
  predicate FitsInput(name: string, isCheckbox: bool) {
    && (name == "consentGiven" ==> isCheckbox)
    && ((name == "entrepreneurName" || name == "panNumber") ==> !isCheckbox)
  }

  /**
   * The fallback schema asks for exactly the fields the submit handlers
   * read, all required, with the same patterns `validateField` tests, and
   * renders them with input types that keep the form well typed.
   */
  lemma FallbackSchemaMatchesHandlers()
    ensures Names(FallbackSchema.step1) == ["aadhaarNumber", "entrepreneurName", "consentGiven"]
    ensures Names(FallbackSchema.step2) == ["panNumber"]
    ensures forall f :: f in FallbackSchema.step1 + FallbackSchema.step2 ==> f.validation.required
    ensures forall f :: f in FallbackSchema.step1 + FallbackSchema.step2 ==>
              FitsInput(f.name, f.inputType == "checkbox")
    ensures FallbackSchema.step1[0].validation.regex == Some(Source(AadhaarPattern))
    ensures FallbackSchema.step2[0].validation.regex == Some(Source(PanPattern))
  {
    var all := FallbackSchema.step1 + FallbackSchema.step2;
    assert all == [all[0], all[1], all[2], all[3]];
  }

  /** `handleChange`: store the checkbox's `checked` or the input's `value` under its name. */
  function Change(s: Session, name: string, value: string, isCheckbox: bool, checked: bool): (t: Session)
    ensures t.form == s.form[name := if isCheckbox then Bool(checked) else Str(value)]
    ensures t.step == s.step && t.errors == s.errors && t.success == s.success && t.timers == s.timers
  {
    s.(form := s.form[name := if isCheckbox then Bool(checked) else Str(value)])
  }

  /**
   * `name === "pinCode" && value.length === 6`: when the location lookup is
   * started. Every six-digit PIN code starts it, and a value of digits only
   * starts it only at six digits; a value of three characters above U+FFFF
   * starts it too, as JavaScript counts UTF-16 units.
   */
  predicate StartsPinLookup(name: string, value: string): (starts: bool)
    ensures starts ==> name == "pinCode" && 3 <= |value| <= 6
    ensures name == "pinCode" && AllDigits(value) ==> (starts <==> |value| == 6)
  {
    Utf16LengthOfBmp(value);
    name == "pinCode" && Utf16Length(value) == 6
  }

  /** Typing never touches the errors object, and an input rendered as the schema says keeps the state consistent. */
  lemma ChangeConsistent(s: Session, name: string, value: string, isCheckbox: bool, checked: bool)
    requires Consistent(s) && FitsInput(name, isCheckbox)
    ensures Consistent(Change(s, name, value, isCheckbox, checked))
  {
    var t := Change(s, name, value, isCheckbox, checked);
    assert Get(t.form, "entrepreneurName") == (if name == "entrepreneurName" then Str(value) else Get(s.form, "entrepreneurName"));
    assert Get(t.form, "panNumber") == (if name == "panNumber" then Str(value) else Get(s.form, "panNumber"));
    assert Get(t.form, "consentGiven") == (if name == "consentGiven" then Bool(checked) else Get(s.form, "consentGiven"));
  }

  /**
   * Since typing never clears an error, after a rejected submit the
   * errors object still holds a key when every field has been corrected,
   * and the next submit posts nothing even though all three fields pass.
   */
  lemma CorrectedFormNeedsSecondSubmit(s: Session, reply: Reply)
    requires Typed(s.form) && StepOnePasses(s.form) && s.errors == map["consentGiven" := ConsentRequired]
    ensures SubmitStep1(s, reply).sent.None?
    ensures SubmitStep1(s, reply).next.errors == map[]
    ensures SubmitStep1(SubmitStep1(s, reply).next, reply).sent.Some?
  {
    Step1SentIff(s, reply);
    var t := SubmitStep1(s, reply).next;
    var c := ValidateField(s.errors, "consentGiven", Get(s.form, "consentGiven")).0;
    assert c == s.errors - {"consentGiven"};
    Step1SentIff(t, reply);
  }

  /** The component's state hooks (`loading` is left out: requests complete within a handler). */
  class Component {
    var step: int
    var form: map<string, JsVal>
    var errors: map<string, string>
    var success: string
    var timers: seq<Timer>
    var schema: Option<Schema>

    function State(): Session
      reads this
    {
      Session(step, form, errors, success, timers)
    }

    ghost predicate Valid()
      reads this
    {
      Consistent(State())
    }

    /** The `useState` initial values; no schema yet ("Loading form..."). */
    constructor ()
      ensures State() == Initial() && schema == None && Valid()
    {
      step := 1;
      form := map["aadhaarNumber" := Str(""), "entrepreneurName" := Str(""), "consentGiven" := Bool(false),
                  "panNumber" := Str(""), "otp" := Str("")];
      errors := map[];
      success := "";
      timers := [];
      schema := None;
      InitialConsistent();
    }

    /** The `/schema` fetch answered: `setSchema(data)`. */
    method SchemaLoaded(loaded: Schema)
      modifies this
      ensures schema == Some(loaded) && State() == old(State())
    {
      schema := Some(loaded);
    }

    /** The `/schema` fetch failed: the fallback schema is used. */
    method SchemaFetchFailed()
      modifies this
      ensures schema == Some(FallbackSchema) && State() == old(State())
    {
      schema := Some(FallbackSchema);
    }

    /** `handleChange(e)`; the answer says whether `fetchLocationByPin` is started. */
    method HandleChange(name: string, value: string, isCheckbox: bool, checked: bool) returns (pinLookup: bool)
      requires Valid() && FitsInput(name, isCheckbox)
      modifies this
      ensures State() == Change(old(State()), name, value, isCheckbox, checked) && Valid()
      ensures schema == old(schema)
      ensures pinLookup <==> StartsPinLookup(name, value)
    {
      form := form[name := if isCheckbox then Bool(checked) else Str(value)];
      pinLookup := name == "pinCode" && Utf16Length(value) == 6;
      ChangeConsistent(old(State()), name, value, isCheckbox, checked);
    }

    /** `validateField` as run by a handler of the render whose errors object was `rendered`. */
    method ValidateField(rendered: map<string, string>, name: string, value: JsVal) returns (ok: bool)
      requires Throwless(name, value)
      modifies this
      ensures (errors, ok) == FormSession.ValidateField(rendered, name, value)
      ensures step == old(step) && form == old(form) && success == old(success) && timers == old(timers)
      ensures schema == old(schema)
    {
      var newErrors := UpdateErrors(rendered, name, CheckField(name, value));
      errors := newErrors;
      ok := |newErrors| == 0;
    }

    /** `handleSubmitStep1`, with the server's reply to the post (if one is made) as `reply`. */
    method HandleSubmitStep1(reply: Reply) returns (sent: Option<Request>)
      requires Valid()
      modifies this
      ensures Submission(State(), sent) == SubmitStep1(old(State()), reply) && Valid()
      ensures schema == old(schema)
    {
      var rendered := errors;
      var isAadhaarValid := ValidateField(rendered, "aadhaarNumber", Get(form, "aadhaarNumber"));
      var isNameValid := ValidateField(rendered, "entrepreneurName", Get(form, "entrepreneurName"));
      var isConsentValid := ValidateField(rendered, "consentGiven", Get(form, "consentGiven"));
      if !isAadhaarValid || !isNameValid || !isConsentValid {
        sent := None;
        return;
      }
      sent := Some(Step1Request(Get(form, "aadhaarNumber"), Get(form, "entrepreneurName"), Get(form, "consentGiven")));
      match reply {
        case Ok(id) =>
          form := form["registrationStep1Id" := id];
          success := StepOneDone;
          timers := timers + [AdvanceToStep2];
        case NotOk(error) =>
          errors := map["general" := FailureMessage(error)];
        case Thrown =>
          errors := map["general" := NetworkFailure];
      }
      SubmitStep1Consistent(old(State()), reply);
    }

    /** `handleSubmitStep2`, with the server's reply to the post (if one is made) as `reply`. */
    method HandleSubmitStep2(reply: Reply) returns (sent: Option<Request>)
      requires Valid()
      modifies this
      ensures Submission(State(), sent) == SubmitStep2(old(State()), reply) && Valid()
      ensures schema == old(schema)
    {
      var pan := Get(form, "panNumber");
      var ok := ValidateField(errors, "panNumber", pan);
      if !ok {
        sent := None;
        return;
      }
      sent := Some(Step2Request(Get(form, "registrationStep1Id"), ToUpperAscii(pan.s)));
      match reply {
        case Ok(_) =>
          success := StepTwoDone;
        case NotOk(error) =>
          errors := map["general" := FailureMessage(error)];
        case Thrown =>
          errors := map["general" := NetworkFailure];
      }
      SubmitStep2Consistent(old(State()), reply);
    }

    /** The pending `setTimeout(() => { setStep(2); setSuccess("") })` runs. */
    method RunTimer(i: nat)
      requires Valid() && i < |timers|
      modifies this
      ensures State() == FireTimer(old(State()), i) && Valid()
      ensures schema == old(schema)
    {
      if timers[i] == AdvanceToStep2 {
        step := 2;
      }
      success := "";
      timers := timers[..i] + timers[i + 1..];
      FireTimerConsistent(old(State()), i);
    }
  }
}
