/**
 * The pattern library: the three regular expressions that the client rule
 * sets, the server guards, the form components and the scraped rule table
 * all use, each written as an explicit predicate beside its source text.
 */
module Patterns {
  import opened Js

  predicate AllDigits(s: string) {
    forall i :: 0 <= i < |s| ==> IsAsciiDigit(s[i])
  }

  /** `^[0-9]{n}$`: exactly `n` ASCII digits and nothing else. */
  predicate DigitsOfLength(s: string, n: nat) {
    |s| == n && AllDigits(s)
  }

  /** `^[A-Za-z]{5}[0-9]{4}[A-Za-z]{1}$`: five letters, four digits, one letter. */
  predicate PanShape(s: string) {
    && |s| == 10
    && (forall i :: 0 <= i < 5 ==> IsAsciiLetter(s[i]))
    && (forall i :: 5 <= i < 9 ==> IsAsciiDigit(s[i]))
    && IsAsciiLetter(s[9])
  }

  datatype Pattern = AadhaarPattern | PanPattern | OtpPattern

  /** The regular expression's source text, as every rule table spells it. */
  function Source(p: Pattern): string {
    match p
    case AadhaarPattern => "^[0-9]{12}$"
    case PanPattern => "^[A-Za-z]{5}[0-9]{4}[A-Za-z]{1}$"
    case OtpPattern => "^[0-9]{6}$"
  }

  /** `regex.test(s)` on a string. */
  predicate Test(p: Pattern, s: string) {
    match p
    case AadhaarPattern => DigitsOfLength(s, 12)
    case PanPattern => PanShape(s)
    case OtpPattern => DigitsOfLength(s, 6)
  }

  /** `regex.test(v)` on any value: the value is first converted with `String(v)`. */
  predicate TestValue(p: Pattern, v: JsVal) {
    Test(p, ToJsString(v))
  }

  /** The PAN pattern accepts either case, so upper-casing first changes nothing. */
  lemma PanShapeIgnoresCase(s: string)
    ensures PanShape(ToUpperAscii(s)) <==> PanShape(s)
  {
  }

  /** A string of digits has no whitespace to strip or trim. */
  lemma DigitsAreUnpadded(s: string)
    requires AllDigits(s)
    ensures RemoveWhitespace(s) == s
    ensures Trim(s) == s
  {
    FilterKeepsAll(s, NotWhitespace);
    TrimOfUnpadded(s);
  }

  /** Neither `undefined`, `null`, `true` nor `false` passes any of the patterns. */
  lemma KeywordsFailEveryPattern(p: Pattern, v: JsVal)
    requires v.Undefined? || v.Null? || v.Bool?
    ensures !TestValue(p, v)
  {
    var s := ToJsString(v);
    assert !IsAsciiDigit(s[0]) && !IsAsciiDigit(s[|s| - 1]);
  }
}
