/**
 * The field classifier the portal scraper runs over every `input`,
 * `select` and `textarea` of the page: derive a label, drop hidden, submit
 * and unlabelled inputs, classify the rest by the first keyword their
 * lower-cased label contains, and append them, in document order, to the
 * step-1 or step-2 field list. The fixed validation-rule table it emits
 * beside the fields is here too.
 */
module Scraper {
  import opened Js
  import opened Patterns

  /** What the scraper reads from one DOM element. */
  datatype DomInput = DomInput(
    inputType: string,            // `input.type` ("" when the element has none)
    tagName: string,              // `input.tagName`
    requiredProperty: bool,       // `input.required`
    requiredAttribute: bool,      // `input.hasAttribute("required")`
    associatedLabel: Option<string>,// `input.labels?.[0]?.textContent`
    placeholder: Option<string>,  // `input.getAttribute("placeholder")`
    tdText: Option<string>,       // `input.closest("td")?.textContent`
    divText: Option<string>,      // `input.closest("div")?.textContent`
    parentText: Option<string>,   // `input.parentElement?.textContent`
    name: string,
    id: string,
    maxLength: int,
    pattern: string,
    className: string,
    value: string)

  /** The keyword classes, in the order they are tried. */
  datatype Category = Aadhaar | EntrepreneurName | Consent | Pan | Otp

  /** `{ required, type, pattern }` */
  datatype Validation = Validation(required: bool, inputType: string, pattern: string)

  /** `{ ...fieldInfo, category, step }` */
  datatype Field = Field(
    name: string,
    labelText: string,
    inputType: string,
    placeholder: string,
    required: bool,
    pattern: string,
    maxLength: Option<int>,
    className: string,
    value: string,
    id: string,
    validation: Validation,
    category: Category,
    step: int)

  /** `category` as written in the emitted JSON. */
  function CategoryName(c: Category): string {
    match c
    case Aadhaar => "aadhaar"
    case EntrepreneurName => "entrepreneur_name"
    case Consent => "consent"
    case Pan => "pan"
    case Otp => "otp"
  }

  /** Aadhaar, name and consent fields belong to step 1; PAN and OTP to step 2. */
  function StepOf(c: Category): (step: int)
    ensures step == 1 <==> c in {Aadhaar, EntrepreneurName, Consent}
    ensures step == 1 || step == 2
  {
    match c
    case Aadhaar => 1
    case EntrepreneurName => 1
    case Consent => 1
    case Pan => 2
    case Otp => 2
  }

  /** An optional string that is truthy: present and not empty. */
  predicate Present(a: Option<string>) {
    a.Some? && a.value != ""
  }

  /** `a || b` on two optional strings: the first one that is a non-empty string. */
  function FirstNonEmpty(a: Option<string>, b: string): string {
    if Present(a) then a.value else b
  }

  /** `s.split("\n")[0]`: everything before the first line feed. */
  function FirstLine(s: string): (r: string)
    ensures r <= s
    ensures '\n' !in r
    ensures |r| < |s| ==> s[|r|] == '\n'
  {
    if s == [] || s[0] == '\n' then [] else [s[0]] + FirstLine(s[1..])
  }

  /** The text of the nearest `td`, else `div`, else parent, else "": the first of them that is not empty. */
  function ContainerText(input: DomInput): (text: string)
    ensures Present(input.tdText) ==> text == input.tdText.value
    ensures !Present(input.tdText) && Present(input.divText) ==> text == input.divText.value
    ensures !Present(input.tdText) && !Present(input.divText) && Present(input.parentText) ==>
              text == input.parentText.value
    ensures text == "" <==> !Present(input.tdText) && !Present(input.divText) && !Present(input.parentText)
  {
    FirstNonEmpty(input.tdText, FirstNonEmpty(input.divText, FirstNonEmpty(input.parentText, "")))
  }

  /** The first truthy of: label text, placeholder, trimmed first container line, `Field {index}`. */
  function LabelOf(input: DomInput, index: nat): (labelText: string)
    ensures labelText != ""
    ensures Present(input.associatedLabel) ==> labelText == input.associatedLabel.value
    ensures !Present(input.associatedLabel) && Present(input.placeholder) ==> labelText == input.placeholder.value
    ensures !Present(input.associatedLabel) && !Present(input.placeholder) ==>
              var line := Trim(FirstLine(ContainerText(input)));
              labelText == if line != "" then line else "Field " + NatToString(index)
  {
    var fromContainer := Trim(FirstLine(ContainerText(input)));
    FirstNonEmpty(input.associatedLabel,
      FirstNonEmpty(input.placeholder,
        if fromContainer != "" then fromContainer else "Field " + NatToString(index)))
  }

  /** Hidden and submit inputs, and inputs whose label is blank, are not emitted. */
  predicate Skipped(input: DomInput, labelText: string): (skipped: bool)
    ensures skipped <==> input.inputType in {"hidden", "submit"} || AllWhitespace(labelText)
  {
    BlankTrimIff(labelText);
    input.inputType == "hidden" || input.inputType == "submit" || Trim(labelText) == ""
  }

  /** The Aadhaar keywords: "aadhaar", or the Hindi word for it. */
  predicate AadhaarWords(lower: string) {
    Contains(lower, "aadhaar") || Contains(lower, "\U{906}\U{927}\U{93E}\U{930}")
  }

  /** The name keywords: "entrepreneur", or the Hindi word for it. */
  predicate NameWords(lower: string) {
    Contains(lower, "entrepreneur") || Contains(lower, "\U{909}\U{926}\U{94D}\U{92F}\U{92E}\U{940}")
  }

  /** The consent keywords. */
  predicate ConsentWords(lower: string) {
    Contains(lower, "consent") || Contains(lower, "agree")
  }

  /**
   * The first keyword class the lower-cased label contains (a checkbox
   * counts as consent), or none.
   */
  function Classify(labelText: string, inputType: string): (c: Option<Category>)
    ensures var lower := ToLowerAscii(labelText);
              c == Some(Aadhaar) <==> AadhaarWords(lower)
    ensures var lower := ToLowerAscii(labelText);
              c == Some(EntrepreneurName) <==> !AadhaarWords(lower) && NameWords(lower)
    ensures var lower := ToLowerAscii(labelText);
              c == Some(Consent) <==>
                !AadhaarWords(lower) && !NameWords(lower) && (ConsentWords(lower) || inputType == "checkbox")
    ensures var lower := ToLowerAscii(labelText);
              c == Some(Pan) <==>
                !AadhaarWords(lower) && !NameWords(lower) && !ConsentWords(lower) && inputType != "checkbox"
                && Contains(lower, "pan")
    ensures var lower := ToLowerAscii(labelText);
              c == Some(Otp) <==>
                !AadhaarWords(lower) && !NameWords(lower) && !ConsentWords(lower) && inputType != "checkbox"
                && !Contains(lower, "pan") && Contains(lower, "otp")
    ensures var lower := ToLowerAscii(labelText);
              c.None? <==>
                !AadhaarWords(lower) && !NameWords(lower) && !ConsentWords(lower) && inputType != "checkbox"
                && !Contains(lower, "pan") && !Contains(lower, "otp")
  {
    var lower := ToLowerAscii(labelText);
    if AadhaarWords(lower) then Some(Aadhaar)
    else if NameWords(lower) then Some(EntrepreneurName)
    else if ConsentWords(lower) || inputType == "checkbox" then Some(Consent)
    else if Contains(lower, "pan") then Some(Pan)
    else if Contains(lower, "otp") then Some(Otp)
    else None
  }

  /** `fieldInfo` with the category and step the classifier chose. */
  function MakeField(input: DomInput, index: nat, category: Category): (f: Field)
    ensures f.step == StepOf(category) && f.category == category
    ensures |f.labelText| <= 100 && f.labelText == Take(Trim(LabelOf(input, index)), 100)
    ensures f.required <==>
              input.requiredProperty || input.requiredAttribute || Contains(LabelOf(input, index), "*")
    ensures f.name == (if input.name != "" then input.name
                       else if input.id != "" then input.id
                       else "field_" + NatToString(index))
    ensures f.maxLength.Some? <==> input.maxLength > 0
    ensures f.maxLength.Some? ==> f.maxLength.value == input.maxLength
  {
    var labelText := LabelOf(input, index);
    Field(
      if input.name != "" then input.name else if input.id != "" then input.id else "field_" + NatToString(index),
      Take(Trim(labelText), 100),
      if input.inputType != "" then input.inputType else ToLowerAscii(input.tagName),
      input.placeholder.GetOr(""),
      input.requiredProperty || input.requiredAttribute || Contains(labelText, "*"),
      input.pattern,
      if input.maxLength > 0 then Some(input.maxLength) else None,
      input.className,
      input.value,
      input.id,
      Validation(input.requiredProperty || Contains(labelText, "*"), input.inputType, input.pattern),
      category,
      StepOf(category))
  }

  /** What one iteration of the `forEach` appends, if anything. */
  function Emit(input: DomInput, index: nat): (r: Option<Field>)
    ensures r.Some? ==> !Skipped(input, LabelOf(input, index))
    ensures r.Some? <==>
              !Skipped(input, LabelOf(input, index)) && Classify(LabelOf(input, index), input.inputType).Some?
    ensures r.Some? ==> r.value == MakeField(input, index, Classify(LabelOf(input, index), input.inputType).value)
  {
    var labelText := LabelOf(input, index);
    if Skipped(input, labelText) then None
    else
      match Classify(labelText, input.inputType)
      case None => None
      case Some(c) => Some(MakeField(input, index, c))
  }

  /** The step-1 and step-2 lists after the `forEach` has visited `inputs` (indices from 0). */
  function Collected(inputs: seq<DomInput>): (r: (seq<Field>, seq<Field>))
    ensures |r.0| + |r.1| <= |inputs|
    ensures forall f :: f in r.0 ==> f.step == 1 && f.category in {Aadhaar, EntrepreneurName, Consent}
    ensures forall f :: f in r.1 ==> f.step == 2 && f.category in {Pan, Otp}
    decreases |inputs|
  {
    if inputs == [] then ([], [])
    else
      var n := |inputs| - 1;
      var (one, two) := Collected(inputs[..n]);
      match Emit(inputs[n], n)
      case None => (one, two)
      case Some(f) => if f.step == 1 then (one + [f], two) else (one, two + [f])
  }

  /**
   * `inputs.forEach((input, index) => ...)`, pushing into the two field
   * lists of the scraped data.
   */
  method ExtractFields(inputs: seq<DomInput>) returns (step1: seq<Field>, step2: seq<Field>)
    ensures (step1, step2) == Collected(inputs)
  {
    step1 := [];
    step2 := [];
    var index := 0;
    while index < |inputs|
      invariant 0 <= index <= |inputs|
      invariant (step1, step2) == Collected(inputs[..index])
    {
      assert inputs[..index + 1][..index] == inputs[..index];
      var emitted := Emit(inputs[index], index);
      if emitted.Some? {
        if emitted.value.step == 1 {
          step1 := step1 + [emitted.value];
        } else {
          step2 := step2 + [emitted.value];
        }
      }
      index := index + 1;
    }
    assert inputs[..index] == inputs;
  }

  /** One more element appends at most one field, to the list of its step, and keeps the rest. */
  lemma {:induction false} CollectedStep(inputs: seq<DomInput>, input: DomInput)
    ensures var (one, two) := Collected(inputs);
            var (one', two') := Collected(inputs + [input]);
            match Emit(input, |inputs|)
            case None => one' == one && two' == two
            case Some(f) => if f.step == 1 then one' == one + [f] && two' == two
                            else one' == one && two' == two + [f]
  {
    assert (inputs + [input])[..|inputs|] == inputs;
  }

  /** A hidden or submit input never adds a field, whatever its label says. */
  lemma HiddenNeverEmitted(inputs: seq<DomInput>, input: DomInput)
    requires input.inputType == "hidden" || input.inputType == "submit"
    ensures Collected(inputs + [input]) == Collected(inputs)
  {
    CollectedStep(inputs, input);
  }

  /** A label that contains "pan" but none of the earlier keywords is a PAN field, unless it is a checkbox. */
  lemma ClassifiedAsPan(labelText: string, inputType: string)
    requires var lower := ToLowerAscii(labelText);
      && !Contains(lower, "aadhaar") && !Contains(lower, "\U{906}\U{927}\U{93E}\U{930}")
      && !Contains(lower, "entrepreneur") && !Contains(lower, "\U{909}\U{926}\U{94D}\U{92F}\U{92E}\U{940}")
      && !Contains(lower, "consent") && !Contains(lower, "agree") && Contains(lower, "pan")
    requires inputType != "checkbox"
    ensures Classify(labelText, inputType) == Some(Pan)
  {
  }

  /** Classification is by substring: "Company Name" contains "pan" and is taken for a PAN field. */
  lemma CompanyNameTakenForPan(labelText: string)
    requires labelText == "Company Name"
    ensures Classify(labelText, "text") == Some(Pan)
  {
    var lower := ToLowerAscii(labelText);
    assert |lower| == 12;
    assert lower[3] == 'p' && lower[4] == 'a' && lower[5] == 'n';
    forall i | 0 <= i < |lower|
      ensures lower[i] !in {'d', 't', 's', 'g', '\U{906}', '\U{909}'}
    {
      assert labelText[i] in {'C', 'o', 'm', 'p', 'a', 'n', 'y', ' ', 'N', 'e'};
    }
    MissingCharNotContained(lower, "aadhaar", 'd');
    MissingCharNotContained(lower, "\U{906}\U{927}\U{93E}\U{930}", '\U{906}');
    MissingCharNotContained(lower, "entrepreneur", 't');
    MissingCharNotContained(lower, "\U{909}\U{926}\U{94D}\U{92F}\U{92E}\U{940}", '\U{909}');
    MissingCharNotContained(lower, "consent", 's');
    MissingCharNotContained(lower, "agree", 'g');
    assert lower[3..6] == "pan";
    ContainsAt(lower, "pan", 3);
    ClassifiedAsPan(labelText, "text");
  }

  /** The Aadhaar keyword wins over every later one, checkbox or not. */
  lemma AadhaarKeywordFirst(labelText: string, inputType: string)
    requires Contains(ToLowerAscii(labelText), "aadhaar")
    ensures Classify(labelText, inputType) == Some(Aadhaar)
  {
  }

  /** A label of `x`s followed by "otp" holds no earlier keyword and is an OTP field. */
  lemma XsThenOtpClassified(prefix: string)
    requires forall i :: 0 <= i < |prefix| ==> prefix[i] == 'x'
    ensures Classify(prefix + "otp", "text") == Some(Otp)
  {
    var labelText := prefix + "otp";
    var lower := ToLowerAscii(labelText);
    assert lower == labelText;
    assert forall i :: 0 <= i < |lower| ==> lower[i] in {'x', 'o', 't', 'p'};
    MissingCharNotContained(lower, "aadhaar", 'a');
    MissingCharNotContained(lower, "\U{906}\U{927}\U{93E}\U{930}", '\U{906}');
    MissingCharNotContained(lower, "entrepreneur", 'e');
    MissingCharNotContained(lower, "\U{909}\U{926}\U{94D}\U{92F}\U{92E}\U{940}", '\U{909}');
    MissingCharNotContained(lower, "consent", 'c');
    MissingCharNotContained(lower, "agree", 'a');
    MissingCharNotContained(lower, "pan", 'a');
    assert lower[|prefix|..|prefix| + 3] == "otp";
    ContainsAt(lower, "otp", |prefix|);
  }

  /** Cutting such a label to its first 100 characters, when 100 `x`s lead it, drops the "otp". */
  lemma CutDropsOtp(prefix: string)
    requires |prefix| == 100 && forall i :: 0 <= i < 100 ==> prefix[i] == 'x'
    ensures !Contains(Take(Trim(prefix + "otp"), 100), "otp")
  {
    TrimOfUnpadded(prefix + "otp");
    assert Take(prefix + "otp", 100) == prefix;
    assert 'o' !in prefix;
    MissingCharNotContained(prefix, "otp", 'o');
  }

  /**
   * The keyword is looked for in the full label, not in the stored one cut
   * to 100 characters: a long label whose "otp" lies beyond the cut is
   * still an OTP field.
   */
  lemma ClassifiedOnFullLabel(prefix: string)
    requires |prefix| == 100 && forall i :: 0 <= i < 100 ==> prefix[i] == 'x'
    ensures Classify(prefix + "otp", "text") == Some(Otp)
    ensures !Contains(Take(Trim(prefix + "otp"), 100), "otp")
  {
    XsThenOtpClassified(prefix);
    CutDropsOtp(prefix);
  }

  /** The rule table emitted with every scrape: one pattern and message per key. */
  datatype Rule = Rule(pattern: string, message: string)

  const ValidationRules: map<string, Rule> := map[
    "aadhaar" := Rule("^[0-9]{12}$", "Aadhaar number must be 12 digits"),
    "pan" := Rule("^[A-Za-z]{5}[0-9]{4}[A-Za-z]{1}$", "Invalid PAN number format"),
    "otp" := Rule("^[0-9]{6}$", "OTP must be 6 digits")]

  /** The table does not depend on the page, and its patterns are the three of the pattern library. */
  lemma RulesUseLibraryPatterns()
    ensures ValidationRules.Keys == {"aadhaar", "pan", "otp"}
    ensures ValidationRules["aadhaar"].pattern == Source(AadhaarPattern)
    ensures ValidationRules["pan"].pattern == Source(PanPattern)
    ensures ValidationRules["otp"].pattern == Source(OtpPattern)
  {
  }
}
