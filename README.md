# Udyam registration: validation rules, step machine and field classifier

This project models the parts of the Udyam registration clone that decide
what a registration form accepts. It also proves properties of them.

- **Client validation library** (`EnhancedValidation`):
  - single-field validators for the PAN, Aadhaar number, entrepreneur name, consent and OTP;
  - the step-level `validateForm`;
  - the keystroke formatters;
  - the `getNextStep` gate.
- **Legacy client rule set** (`LegacyValidation`): the same shape with different rules.
  - There is no whitespace stripping and no placeholder rejection.
  - Consent must be strictly `true`.
  - Step 2 checks only the PAN.
- **Server request guards** (`FormValidators`): `validateStep1` and `validateStep2` as ordered guard chains.
  - Each either hands the request on or answers 400 with one fixed message.
- **Both React registration components**:
  - `FormSession` holds the behaviour the two share, as pure transitions on a state snapshot:
    - the per-field `validateField` rule on a copy of the errors object;
    - the two submit handlers, with the server's reply as a parameter;
    - the 2-second timers they schedule;
    - the "Back" button.
  - `UdyamFormNew.Component` and `UdyamForm.Component` are classes whose fields are the state hooks.
    - Each handler method is proved to make exactly the transition `FormSession` defines.
    - `Valid()` (steps are 1 or 2, fields keep their types, step 2 only after an id was stored) is kept by every handler.
- **Scraper field classifier** (`Scraper`):
  - label derivation, the skip filter, the first-keyword classification and the two field lists built in document order;
  - the fixed validation-rule table.
- **Cross-checks** (`CrossChecks`): where the rule sets agree and where they do not.

Modelling choices:
- JavaScript values are `Js.JsVal` (undefined, null, booleans, integral numbers, strings), with JavaScript truthiness and `String(v)`.
- Strings are sequences of Unicode scalar values. Lengths that the code compares are counted in UTF-16 units.
- `trim()` and `\s` use the exact ECMAScript whitespace set.
- Upper- and lower-casing map ASCII letters only.
- Each regular expression is an explicit predicate (`Patterns`). Its source text is kept beside it for the rule tables.
- `\p{L}\p{M}` in the name pattern is the parameter `isLetterOrMark` of the client library's name validator. Lemmas that need facts about it assume only that it agrees with Unicode on ASCII.
- The server's replies, and everything asynchronous, are inputs.
  - A submit takes the reply it would get.
  - A pending `setTimeout` callback is a `Timer` in the state, run by index.

The scraper tries the keywords in the order the code does: Aadhaar, entrepreneur, consent/agree/checkbox, PAN, OTP.

## Model

| member | source | states |
|---|---|---|
| EnhancedValidation.ValidatePan | frontend/src/utils/enhancedValidation.js:46-57 | falsy gives "PAN number is required"; otherwise accepted iff the trimmed value has PAN shape (case-insensitive); any other value gives exactly the invalid-format message |
| EnhancedValidation.ValidateAadhaar | frontend/src/utils/enhancedValidation.js:59-76 | falsy gives the required message; with all whitespace removed, not twelve ASCII digits gives "must be exactly 12 digits"; accepted iff twelve digits that are not all 0 and not all 1 |
| EnhancedValidation.RepeatedTwelve | frontend/src/utils/enhancedValidation.js:71-73 | for twelve characters, "all zeros"/"all ones" coincide with the two literal placeholders the code compares against |
| EnhancedValidation.ValidateEntrepreneurName | frontend/src/utils/enhancedValidation.js:78-98 | first failure in order on the trimmed name: empty, fewer than 2 UTF-16 units, more than 100, a character outside letter/mark/whitespace/`.`/`'`/`-`; each message iff its condition |
| EnhancedValidation.ValidateConsent | frontend/src/utils/enhancedValidation.js:100-105 | passes exactly on truthy values |
| EnhancedValidation.ValidateOtp | frontend/src/utils/enhancedValidation.js:107-114 | falsy gives "OTP is required"; accepted iff exactly six ASCII digits, untrimmed |
| EnhancedValidation.StepErrors | frontend/src/utils/enhancedValidation.js:117-145 | step 1 reports only the three step-1 keys, step 2 the PAN and (only when supplied) the OTP, other steps nothing; each entry is present iff its validator fails and holds that validator's message |
| EnhancedValidation.ValidateForm | frontend/src/utils/enhancedValidation.js:117-145 | the method builds exactly `StepErrors`, and `isValid` holds iff every checked field passes |
| EnhancedValidation.StepValidIff | frontend/src/utils/enhancedValidation.js:141-144 | the errors object is empty iff every field the step checks passes |
| EnhancedValidation.StepTwoOtpOptional | frontend/src/utils/enhancedValidation.js:131-139 | with no OTP supplied, step 2 reports only the PAN's entry |
| EnhancedValidation.FormatAadhaar | frontend/src/utils/enhancedValidation.js:148-159 | at most 14 characters; up to four digits unspaced, a space at index 4 past four digits and at index 9 past eight, exactly that many spaces added |
| EnhancedValidation.FormatPan | frontend/src/utils/enhancedValidation.js:161-164 | the first ten characters (all when shorter), each upper-cased |
| EnhancedValidation.FormatOtp | frontend/src/utils/enhancedValidation.js:166-169 | a prefix of the input's digits, all ASCII digits, exactly as long as the typed digits up to six |
| EnhancedValidation.FormatAadhaarRoundTrip | frontend/src/utils/enhancedValidation.js:148-159 | removing the whitespace from the formatted value gives the first twelve digits of the input |
| EnhancedValidation.FormatAadhaarIdempotent | frontend/src/utils/enhancedValidation.js:148-159 | formatting a formatted Aadhaar number changes nothing |
| EnhancedValidation.FormatPanIdempotent | frontend/src/utils/enhancedValidation.js:161-164 | formatting a formatted PAN changes nothing |
| EnhancedValidation.FormatOtpIdempotent | frontend/src/utils/enhancedValidation.js:166-169 | formatting a formatted OTP changes nothing |
| EnhancedValidation.FormattedAadhaarValidates | frontend/src/utils/enhancedValidation.js:150-158 | input with at least twelve digits whose first twelve are not a placeholder formats into an Aadhaar number `validateAadhaar` accepts |
| EnhancedValidation.FormattedOtpValidates | frontend/src/utils/enhancedValidation.js:166-169 | input with at least six digits formats into an OTP `validateOTP` accepts |
| EnhancedValidation.GetNextStep | frontend/src/utils/enhancedValidation.js:176-182 | from step 1 the answer is 2 iff all three step-1 validators pass, else 1; any other step is returned unchanged |
| EnhancedValidation.PanIgnoresPadding | frontend/src/utils/enhancedValidation.js:50 | surrounding whitespace never changes the PAN verdict |
| EnhancedValidation.NameIgnoresPadding | frontend/src/utils/enhancedValidation.js:83 | surrounding whitespace never changes the name verdict |
| EnhancedValidation.AadhaarIgnoresWhitespace | frontend/src/utils/enhancedValidation.js:63 | whitespace inserted anywhere in an Aadhaar number never changes the verdict |
| EnhancedValidation.RepeatedDigitVerdict | frontend/src/utils/enhancedValidation.js:71-73 | twelve repeats of 0 or 1 are refused as a placeholder; twelve repeats of any other digit (e.g. "999999999999") are accepted |
| EnhancedValidation.MixedDigitsAccepted | frontend/src/utils/enhancedValidation.js:64-75 | twelve digits with two different digits in them (e.g. "100000000000") are accepted |
| EnhancedValidation.NameWithDigitRefused | frontend/src/utils/enhancedValidation.js:92-95 | a trimmed name containing an ASCII digit is refused |
| LegacyValidation.ValidateAadhaar | frontend/src/utils/validation.js:2-7 | falsy gives the required message; accepted iff the raw value is exactly twelve ASCII digits, else "Aadhaar number must be 12 digits" |
| LegacyValidation.ValidatePan | frontend/src/utils/validation.js:9-14 | falsy gives the required message; accepted iff the raw, untrimmed value has PAN shape in either case |
| LegacyValidation.ValidateEntrepreneurName | frontend/src/utils/validation.js:16-20 | blank after trimming gives the required message; accepted iff the trimmed name has at least 2 UTF-16 units (no maximum, no character check) |
| LegacyValidation.ValidateConsent | frontend/src/utils/validation.js:22-25 | passes iff the value is the boolean `true` |
| LegacyValidation.StepErrors | frontend/src/utils/validation.js:27-50 | step 1 reports only the three step-1 keys, each iff its validator fails and with its message; step 2 only the PAN; other steps nothing |
| LegacyValidation.ValidateForm | frontend/src/utils/validation.js:27-50 | the method builds exactly `StepErrors`, and `isValid` holds iff every checked field passes |
| LegacyValidation.StepValidIff | frontend/src/utils/validation.js:46-49 | the errors object is empty iff every field the step checks passes |
| LegacyValidation.AllThreeReported | frontend/src/utils/validation.js:30-39 | a short Aadhaar number, an empty name and no consent report all three keys |
| LegacyValidation.PaddedAadhaarRefused | frontend/src/utils/validation.js:4-5 | twelve digits with a trailing space are refused: nothing is stripped |
| LegacyValidation.ConsentIsStrict | frontend/src/utils/validation.js:23 | the string "true" and the number 1 are not consent; `true` is |
| FormValidators.ValidateStep1 | backend/src/validators/formValidators.js:14-29 | hands on iff the Aadhaar number is twelve digits as sent, the name is a non-blank string and consent is strictly `true`; otherwise the first failing check's message, always with status 400, or an escaping exception for a truthy non-string name |
| FormValidators.ValidateStep2 | backend/src/validators/formValidators.js:1-13 | hands on iff the step-1 id is a non-zero number and the PAN has PAN shape as sent; the id is checked first; every answer is a 400 with one of the two messages; never throws |
| FormValidators.Step1CrashesOnlyOnNonStringName | backend/src/validators/formValidators.js:22 | step 1 throws iff the Aadhaar number passed and the name is a truthy non-string |
| FormValidators.StringIdRefused | backend/src/validators/formValidators.js:4-8 | a string id is refused even when it spells a number |
| FormSession.CheckField | frontend/src/components/UdyamFormNew.jsx:106-152 | per field, passes iff its rule holds (Aadhaar: twelve digits; name: trimmed length at least 2; PAN: PAN shape after upper-casing; OTP: six digits; consent: truthy); the Aadhaar number, PAN and OTP fail with their "required" message iff falsy and with their format message otherwise; the name and consent have one message each; an unknown name is unchecked |
| FormSession.UpdateErrors | frontend/src/components/UdyamFormNew.jsx:104-154 | a pass deletes the field's key, a failure sets its message, an unknown name changes nothing, and every other key is untouched |
| FormSession.ValidateField | frontend/src/components/UdyamFormNew.jsx:103-156 | the copy gets this field's verdict (key deleted on a pass, that verdict's message set on a failure) and keeps every other key; an unknown name leaves the copy as it was; the answer is true iff the copy is empty |
| FormSession.ValidateFieldAnswer | frontend/src/components/UdyamFormNew.jsx:154-155 | the answer is true iff the field passes and no other key is in the errors object |
| FormSession.Initial | frontend/src/components/UdyamFormNew.jsx:84-94 | step 1, empty errors and message, no timers, empty text fields, consent false |
| FormSession.Body | frontend/src/components/UdyamFormNew.jsx:177-185 | the posted body carries exactly the request's values under their keys |
| FormSession.FailureMessage | frontend/src/components/UdyamFormNew.jsx:196 | never empty: the server's error message when it is a non-empty string, and "Registration failed" in every other case |
| FormSession.AfterStep1 | frontend/src/components/UdyamFormNew.jsx:187-200 | success stores the id, sets the message and schedules the step-2 timer; a refusal leaves exactly `{ general: data.error || "Registration failed" }` and an exception exactly the network-error message; the step is unchanged |
| FormSession.SubmitStep1 | frontend/src/components/UdyamFormNew.jsx:163-203 | a post sends exactly the form's three values; without a post the errors become the consent check's copy; with one, the reply's outcome |
| FormSession.Step1SentIff | frontend/src/components/UdyamFormNew.jsx:167-173 | step 1 posts iff the errors object was empty and all three fields pass |
| FormSession.Step1SentPassesServer | frontend/src/components/UdyamFormNew.jsx:177-185 | whatever step 1 posts passes the server's `validateStep1` |
| FormSession.AfterStep2 | frontend/src/components/UdyamFormNew.jsx:239-247 | success sets the completion message; a refusal leaves exactly `{ general: data.error || "Registration failed" }` and an exception exactly the network-error message; step, form and timers unchanged |
| FormSession.SubmitStep2 | frontend/src/components/UdyamFormNew.jsx:223-250 | posts iff the PAN passes and no other key is in the errors object; the post carries the stored id and the upper-cased PAN |
| FormSession.Step2SentPassesServer | frontend/src/components/UdyamFormNew.jsx:233-236 | the PAN step 2 posts passes the server's PAN check, and with a non-zero numeric id the whole guard |
| FormSession.ValidateOtp | frontend/src/components/UdyamFormNew.jsx:205-221 | the OTP's verdict is applied; iff the errors object is then empty the success message is shown and a clearing timer scheduled |
| FormSession.FireTimer | frontend/src/components/UdyamFormNew.jsx:191-194 | the fired timer leaves the pending multiset; the message is cleared; only the step-1 timer moves to step 2 |
| FormSession.InputChange | frontend/src/components/UdyamFormNew.jsx:158-161 | stores the value under its name only and applies that field's verdict to the errors |
| FormSession.Back | frontend/src/components/UdyamFormNew.jsx:413 | step 1, and nothing else changes (form, id, errors, message, timers) |
| FormSession.InitialConsistent | frontend/src/components/UdyamFormNew.jsx:84-94 | the initial state is consistent |
| FormSession.SubmitStep1Consistent | frontend/src/components/UdyamFormNew.jsx:163-203 | step-1 submit keeps the state consistent: the step-2 timer is only scheduled with the id stored |
| FormSession.SubmitStep2Consistent | frontend/src/components/UdyamFormNew.jsx:223-250 | step-2 submit keeps the state consistent |
| FormSession.ValidateOtpConsistent | frontend/src/components/UdyamFormNew.jsx:205-221 | OTP check keeps the state consistent |
| FormSession.FireTimerConsistent | frontend/src/components/UdyamFormNew.jsx:191-194 | running a timer keeps the state consistent: step 2 is only reached with the id stored |
| FormSession.InputChangeConsistent | frontend/src/components/UdyamFormNew.jsx:158-161 | a keystroke of the right type keeps the state consistent |
| FormSession.BackConsistent | frontend/src/components/UdyamFormNew.jsx:413 | "Back" keeps the state consistent |
| FormSession.SubmitsKeepStep | frontend/src/components/UdyamFormNew.jsx:171-200 | no submit changes the step; only the timer does |
| FormSession.RetryBlockedAfterFailure | frontend/src/components/UdyamFormNew.jsx:196-199 | as written: once `general` is in the errors object no `validateField` removes it and neither submit posts again |
| FormSession.FailureLeavesGeneral | frontend/src/components/UdyamFormNew.jsx:195-199 | a refused or unreachable server leaves the `general` key after a post |
| FormSession.SilentRejection | frontend/src/components/UdyamFormNew.jsx:167-171 | as written: a fresh form with only consent ticked posts nothing and shows no message |
| FormSession.SubmitStep1Intended | frontend/src/components/UdyamFormNew.jsx:163-173 | corrected step-1 submit: keeps the step, posts the form's three values, and on a rejection leaves every key other than the three fields as it was |
| FormSession.SubmitStep2Intended | frontend/src/components/UdyamFormNew.jsx:223-236 | corrected step-2 submit: keeps the step and form, posts the stored id and the upper-cased PAN, and on a rejection leaves every key other than the PAN as it was |
| FormSession.IntendedSentIff | frontend/src/components/UdyamFormNew.jsx:167-173 | corrected submits: step 1 posts iff the three fields pass and step 2 iff the PAN passes, whatever else the errors object holds; a refused step 2 shows the PAN's message |
| FormSession.IntendedStep2PassesServer | frontend/src/components/UdyamFormNew.jsx:233-236 | whatever the corrected step-2 submit posts passes the server's PAN check |
| FormSession.IntendedShowsEveryField | frontend/src/components/UdyamFormNew.jsx:167-173 | corrected submit: a rejection shows each failing field's message and clears each passing one |
| FormSession.IntendedReportsSilentCase | frontend/src/components/UdyamFormNew.jsx:167-173 | corrected submit: the fresh form with only consent ticked reports the Aadhaar number and the name |
| UdyamFormNew.AadhaarInput | frontend/src/components/UdyamFormNew.jsx:272 | a prefix of the typed digits, exactly as long as those digits up to twelve |
| UdyamFormNew.OtpInput | frontend/src/components/UdyamFormNew.jsx:370 | a prefix of the typed digits, exactly as long as those digits up to six |
| UdyamFormNew.PanInput | frontend/src/components/UdyamFormNew.jsx:398 | exactly as long as the typed text up to ten characters, each the upper-cased typed one |
| UdyamFormNew.AadhaarInputCheck | frontend/src/components/UdyamFormNew.jsx:272 | the formatted Aadhaar field passes iff at least twelve digits were typed |
| UdyamFormNew.OtpInputCheck | frontend/src/components/UdyamFormNew.jsx:370 | the formatted OTP field passes iff at least six digits were typed |
| UdyamFormNew.PanInputCheck | frontend/src/components/UdyamFormNew.jsx:398 | the formatted PAN field passes iff the first ten typed characters have PAN shape |
| UdyamFormNew.Component.constructor | frontend/src/components/UdyamFormNew.jsx:84-94 | the hooks start in the initial state, which is valid |
| UdyamFormNew.Component.ValidateField | frontend/src/components/UdyamFormNew.jsx:103-156 | the copy of the rendered errors, updated for the one field, becomes the errors; the answer is its emptiness; nothing else changes |
| UdyamFormNew.Component.HandleInputChange | frontend/src/components/UdyamFormNew.jsx:158-161 | makes exactly the `InputChange` transition and keeps `Valid()` |
| UdyamFormNew.Component.OnAadhaarInput | frontend/src/components/UdyamFormNew.jsx:272 | stores the formatted Aadhaar number and validates it |
| UdyamFormNew.Component.OnNameInput | frontend/src/components/UdyamFormNew.jsx:291 | stores the name as typed and validates it |
| UdyamFormNew.Component.OnConsentToggle | frontend/src/components/UdyamFormNew.jsx:315 | stores the checkbox state and validates it |
| UdyamFormNew.Component.OnOtpInput | frontend/src/components/UdyamFormNew.jsx:370 | stores the formatted OTP and validates it |
| UdyamFormNew.Component.OnPanInput | frontend/src/components/UdyamFormNew.jsx:398 | stores the formatted PAN and validates it |
| UdyamFormNew.Component.HandleSubmitStep1 | frontend/src/components/UdyamFormNew.jsx:163-203 | makes exactly the `SubmitStep1` transition, returns what it posted, and keeps `Valid()` |
| UdyamFormNew.Component.HandleValidateOtp | frontend/src/components/UdyamFormNew.jsx:205-221 | makes exactly the `ValidateOtp` transition and keeps `Valid()` |
| UdyamFormNew.Component.HandleSubmitStep2 | frontend/src/components/UdyamFormNew.jsx:223-250 | makes exactly the `SubmitStep2` transition, returns what it posted, and keeps `Valid()` |
| UdyamFormNew.Component.RunTimer | frontend/src/components/UdyamFormNew.jsx:191-194 | makes exactly the `FireTimer` transition and keeps `Valid()` |
| UdyamFormNew.Component.BackToStep1 | frontend/src/components/UdyamFormNew.jsx:413 | makes exactly the `Back` transition and keeps `Valid()` |
| UdyamForm.FallbackSchemaMatchesHandlers | frontend/src/components/UdyamForm.jsx:259-291 | the fallback lists the three step-1 fields and the PAN, all required, with the regexes of `validationPatterns` and input types that keep the form well typed |
| UdyamForm.Change | frontend/src/components/UdyamForm.jsx:296-298 | stores `checked` for a checkbox and `value` otherwise, under the name only; errors and everything else untouched |
| UdyamForm.StartsPinLookup | frontend/src/components/UdyamForm.jsx:301 | only for `pinCode` and a value of three to six characters; on a value of digits only, iff there are exactly six |
| UdyamForm.ChangeConsistent | frontend/src/components/UdyamForm.jsx:296-298 | a change from an input rendered as the schema says keeps the state consistent |
| UdyamForm.CorrectedFormNeedsSecondSubmit | frontend/src/components/UdyamForm.jsx:181-191 | as written: with every field corrected but a stale consent error, the first submit posts nothing and empties the errors, and only the second posts |
| UdyamForm.Component.constructor | frontend/src/components/UdyamForm.jsx:106-117 | the hooks start in the initial state with no schema, which is valid |
| UdyamForm.Component.SchemaLoaded | frontend/src/components/UdyamForm.jsx:252-255 | stores the fetched schema and changes nothing else |
| UdyamForm.Component.SchemaFetchFailed | frontend/src/components/UdyamForm.jsx:256-293 | stores the fallback schema and changes nothing else |
| UdyamForm.Component.HandleChange | frontend/src/components/UdyamForm.jsx:296-304 | makes exactly the `Change` transition; the PIN lookup starts iff the field is `pinCode` with six UTF-16 units |
| UdyamForm.Component.ValidateField | frontend/src/components/UdyamForm.jsx:126-179 | same rules and messages as the new form: the updated copy becomes the errors, and the answer is its emptiness |
| UdyamForm.Component.HandleSubmitStep1 | frontend/src/components/UdyamForm.jsx:181-221 | makes exactly the `SubmitStep1` transition, returns what it posted, keeps the schema and `Valid()` |
| UdyamForm.Component.HandleSubmitStep2 | frontend/src/components/UdyamForm.jsx:223-250 | makes exactly the `SubmitStep2` transition, returns what it posted, keeps the schema and `Valid()` |
| UdyamForm.Component.RunTimer | frontend/src/components/UdyamForm.jsx:209-212 | makes exactly the `FireTimer` transition and keeps `Valid()` |
| Scraper.StepOf | backend/scraper/udyamScraperEnhanced.js:126-161 | Aadhaar, name and consent fields are step 1, PAN and OTP step 2 |
| Scraper.FirstLine | backend/scraper/udyamScraperEnhanced.js:87 | the prefix of the text before its first line feed |
| Scraper.ContainerText | backend/scraper/udyamScraperEnhanced.js:78-82 | the `td` text if non-empty, else the `div` text if non-empty, else the parent text; empty iff all three are missing or empty |
| Scraper.LabelOf | backend/scraper/udyamScraperEnhanced.js:84-88 | never empty; the associated label when non-empty, else the placeholder when non-empty, else the trimmed first container line when non-empty, else `Field {index}` |
| Scraper.Skipped | backend/scraper/udyamScraperEnhanced.js:112-119 | skipped iff the type is `hidden` or `submit` or the label is nothing but whitespace |
| Scraper.Classify | backend/scraper/udyamScraperEnhanced.js:122-162 | each category iff its keywords occur in the lower-cased label and no earlier category's do (a checkbox is consent, after Aadhaar and name); no category iff no keyword occurs and the input is not a checkbox |
| Scraper.MakeField | backend/scraper/udyamScraperEnhanced.js:90-110 | stored label trimmed and cut to 100; `required` iff the required property or attribute or a `*` in the full label; name falls back to id then `field_{index}`; `maxLength` kept iff positive |
| Scraper.Emit | backend/scraper/udyamScraperEnhanced.js:112-162 | an input is emitted iff it is not skipped and its label classifies, with the field built from that category |
| Scraper.Collected | backend/scraper/udyamScraperEnhanced.js:77-163 | at most one field per input; the step-1 list holds only step-1 categories and the step-2 list only step-2 ones |
| Scraper.ExtractFields | backend/scraper/udyamScraperEnhanced.js:75-163 | the `forEach` loop produces exactly `Collected` of the inputs |
| Scraper.CollectedStep | backend/scraper/udyamScraperEnhanced.js:77-163 | one more input appends its field, if any, at the end of its step's list and leaves the other list alone (document order) |
| Scraper.HiddenNeverEmitted | backend/scraper/udyamScraperEnhanced.js:113-119 | a hidden or submit input never adds a field |
| Scraper.ClassifiedAsPan | backend/scraper/udyamScraperEnhanced.js:150 | a non-checkbox label containing "pan" and no earlier keyword is a PAN field |
| Scraper.CompanyNameTakenForPan | backend/scraper/udyamScraperEnhanced.js:150 | "Company Name" is classified as a PAN field |
| Scraper.AadhaarKeywordFirst | backend/scraper/udyamScraperEnhanced.js:122-125 | a label containing "aadhaar" is an Aadhaar field whatever else it contains |
| Scraper.XsThenOtpClassified | backend/scraper/udyamScraperEnhanced.js:156 | a label of `x`s followed by "otp" is an OTP field |
| Scraper.CutDropsOtp | backend/scraper/udyamScraperEnhanced.js:92 | the stored label of 100 `x`s followed by "otp" no longer contains "otp" |
| Scraper.ClassifiedOnFullLabel | backend/scraper/udyamScraperEnhanced.js:92-156 | classification reads the full label: a label whose "otp" lies past the 100-character cut is still an OTP field |
| Scraper.RulesUseLibraryPatterns | backend/scraper/udyamScraperEnhanced.js:44-57 | the table has exactly the Aadhaar, PAN and OTP keys, with the pattern library's three sources |
| CrossChecks.LegacyAadhaarIsServerAadhaar | backend/src/validators/formValidators.js:17 | the legacy client's Aadhaar rule and the server's accept the same values |
| CrossChecks.EnhancedAadhaarPassesServer | frontend/src/utils/enhancedValidation.js:63-66 | on whitespace-free values an Aadhaar number the client library accepts is one the server accepts |
| CrossChecks.ZerosOnlyServer | backend/src/validators/formValidators.js:17-21 | the all-zero placeholder passes the server and fails the client library |
| CrossChecks.SpacedAadhaarOnlyClient | frontend/src/utils/enhancedValidation.js:63 | a number with a space after its fourth digit passes the client library and fails the server |
| CrossChecks.LegacyConsentIsServerConsent | backend/src/validators/formValidators.js:25 | on a body whose Aadhaar number and name pass the guard, `validateStep1` hands it on iff the legacy consent rule finds no error, and answers "Consent must be given." iff it finds one |
| CrossChecks.ConsentRuleSetsDiffer | frontend/src/utils/enhancedValidation.js:100-105 | strict consent implies truthy consent; "yes" is consent to the client library only and the server refuses it |
| CrossChecks.LegacyStepOnePassesServer | backend/src/validators/formValidators.js:14-29 | a step-1 form the legacy rules pass is handed on by the server's guard |
| CrossChecks.OneCharacterNameOnlyServer | backend/src/validators/formValidators.js:22-24 | a one-character name passes the server and fails the legacy rules |
| CrossChecks.FieldFormattersAreLibraryFormatters | frontend/src/utils/enhancedValidation.js:148-169 | the new form's OTP and PAN fields hold exactly what `formatOTP` and `formatPAN` give, and its Aadhaar field `formatAadhaar`'s result without spaces |
| CrossChecks.ScrapedMessagesAreClientMessages | backend/scraper/udyamScraperEnhanced.js:44-57 | the scraped messages are the legacy client's for Aadhaar and PAN and the new form's for the OTP |

## Left out

- `fetchLocationByPin` (enhancedValidation.js and UdyamForm.jsx) is a call to a third-party postal API. `HandleChange` only reports whether it would be started.
- `getStepProgress` is left out. It is floating-point division with `Math.round`.
- The `errorMessages` / `successMessages` constant tables are left out. They have no behaviour.
- The registration controller, the Express server and routes, and persistence are left out. The server is a reply (`Ok`, `NotOk`, `Thrown`) given to each submit. An `Ok` reply is taken to carry `registration.id`; a successful body without it is not modelled.
- The scraper's browser plumbing is left out: launching, navigation, waits, file output, layout and colour scraping. The DOM is a sequence of `DomInput` records, one per element, in document order.
- Rendering, CSS, the `loading` flag and disabled buttons are left out. Each handler runs to completion with its reply, so interleaved clicks during an `await` are not modelled.
- Rendering `schema.step1/step2` as inputs is left out. `FitsInput` states the one fact about it that the proofs use (checkbox for consent, text for name and PAN).
- Unicode case mapping is not modelled: `toUpperCase`/`toLowerCase` map ASCII letters only.
- `\p{L}`/`\p{M}` are a parameter of the client library's name validator.
- Numbers are integral: NaN, fractions and exponent notation in `String(n)` are not modelled.
- Only scalar JSON values are modelled: arrays and objects in a request body are not `JsVal` values. The server guard turns them into strings before testing them; for example, `aadhaarNumber: ["123456789012"]` passes its regular expression. Such bodies are outside the model.
- `slice` and `substring` cut on Unicode scalar values, not on UTF-16 units. The two differ only for characters outside the Basic Multilingual Plane.
- EnhancedValidation.ValidateEntrepreneurName: requires the name to be a string or falsy. A truthy non-string makes `name.trim()` throw (enhancedValidation.js:79), and that exception is not modelled. The components only ever pass strings.
- EnhancedValidation.StepErrors, EnhancedValidation.ValidateForm, EnhancedValidation.StepValidIff and EnhancedValidation.GetNextStep: require `WellTyped`, the same condition on a step-1 form's `entrepreneurName`, for the same throw.
- LegacyValidation.ValidateEntrepreneurName: requires the name to be a string or falsy. A truthy non-string makes `name.trim()` throw (validation.js:17), and that exception is not modelled.
- LegacyValidation.StepErrors, LegacyValidation.ValidateForm and LegacyValidation.StepValidIff: require `WellTyped`, the same condition on a step-1 form's `entrepreneurName`, for the same throw.
- FormSession.CheckField: requires `Throwless`, i.e. a name or PAN value that is a string or falsy. A truthy non-string makes `value.trim()` or `value.toUpperCase()` throw (UdyamFormNew.jsx:118 and 128, UdyamForm.jsx:141 and 151), and that exception is not modelled. Both components store only strings in these fields, which `Consistent` and `Valid()` record.
- FormSession.ValidateField, FormSession.ValidateFieldAnswer and FormSession.InputChange: require `Throwless` for the same throw.
- UdyamFormNew.Component.ValidateField and UdyamForm.Component.ValidateField: require `Throwless` for the same throw. UdyamFormNew.Component.HandleInputChange requires `FitsField`, the stronger condition that the name and PAN are strings, which every input handler meets.
- `handleValidateOtp`'s one-second simulated wait always succeeds. Its `catch` branch cannot be reached and is not modelled.

## Findings

| source | as written | input that shows it | evidently intended | confidence | as-written member | corrected member |
|---|---|---|---|---|---|---|
| frontend/src/components/UdyamFormNew.jsx:155-199 | a failed post stores `{ general }`; `validateField` never deletes `general` and answers "whole object empty", so every later submit of either step posts nothing | step 1 posted with a valid form and a server answer of "not ok"; then resubmit the unchanged valid form | a retry posts whenever the fields pass | not executed | FormSession.RetryBlockedAfterFailure | FormSession.IntendedSentIff |
| frontend/src/components/UdyamFormNew.jsx:167-171 | the three checks copy the same errors snapshot and the last `setErrors` (consent) wins, so only the consent verdict reaches the screen | a fresh form with only the consent box ticked: the submit posts nothing and no message appears | every failing field's message is shown | not executed | FormSession.SilentRejection | FormSession.IntendedShowsEveryField |

The corrected handlers, `FormSession.SubmitStep1Intended` and
`FormSession.SubmitStep2Intended`, live beside the handlers as written.
`FormSession.IntendedSentIff` covers both steps of the first finding. The two component classes model the code as written, so
their methods make the `SubmitStep1` transition.
`FormSession.IntendedReportsSilentCase` shows that the corrected handler
reports both missing fields for the same input.
