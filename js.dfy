/**
 * The small part of JavaScript's value and string semantics that the
 * validators, formatters and the scraper rely on: truthiness, `String(v)`,
 * `trim()`, `\s`, `\D`, ASCII case mapping, `slice(0, n)`, `includes` and
 * UTF-16 lengths.
 */
module Js {

  datatype Option<+T> = None | Some(value: T) {
    function GetOr(default: T): T {
      match this
      case Some(v) => v
      case None => default
    }
  }

  /**
   * A JavaScript value as it reaches a validator: form values are strings or
   * booleans, JSON request bodies may also hold numbers and null, and a
   * missing property reads as undefined. Numbers are integral here.
   */
  datatype JsVal = Undefined | Null | Bool(b: bool) | Num(n: int) | Str(s: string)

  /** `!!v` */
  predicate Truthy(v: JsVal) {
    match v
    case Undefined => false
    case Null => false
    case Bool(b) => b
    case Num(n) => n != 0
    case Str(s) => s != ""
  }

  /**
   * A value on which `!v || v.trim()` does not throw: a string, or a falsy
   * value (which the `!v` test catches first).
   */
  predicate StringOrFalsy(v: JsVal) {
    v.Str? || !Truthy(v)
  }

  /** `String(v)`: what `RegExp.prototype.test` and `toString()` see. */
  function ToJsString(v: JsVal): string {
    match v
    case Undefined => "undefined"
    case Null => "null"
    case Bool(b) => if b then "true" else "false"
    case Num(n) => IntToString(n)
    case Str(s) => s
  }

  /** `obj.key` on a plain object: a missing key reads as undefined. */
  function Get(obj: map<string, JsVal>, key: string): (v: JsVal)
    ensures key !in obj ==> v == Undefined
    ensures key in obj ==> v == obj[key]
  {
    if key in obj then obj[key] else Undefined
  }

  // ---------------------------------------------------------------------
  // Error objects: `{ field: message }`

  /** `obj[field]` read back as an optional message. */
  function Lookup(obj: map<string, string>, field: string): (r: Option<string>)
    ensures r.Some? <==> field in obj
  {
    if field in obj then Some(obj[field]) else None
  }

  /** The entry `if (error) errors.field = error` adds, if any. */
  function Entry(field: string, error: Option<string>): (m: map<string, string>)
    ensures m.Keys <= {field}
    ensures Lookup(m, field) == error
  {
    if error.Some? then map[field := error.value] else map[]
  }

  /** Setting `field` only when there is an error adds that field's entry. */
  lemma AddEntry(before: map<string, string>, field: string, error: Option<string>, after: map<string, string>)
    requires after == if error.Some? then before[field := error.value] else before
    ensures after == before + Entry(field, error)
  {
  }

  // ---------------------------------------------------------------------
  // Characters

  predicate IsAsciiDigit(c: char) { '0' <= c <= '9' }
  predicate IsAsciiUpper(c: char) { 'A' <= c <= 'Z' }
  predicate IsAsciiLower(c: char) { 'a' <= c <= 'z' }
  predicate IsAsciiLetter(c: char) { IsAsciiUpper(c) || IsAsciiLower(c) }

  /**
   * ECMAScript WhiteSpace (TAB, VT, FF, ZWNBSP and every Zs code point) and
   * LineTerminator (LF, CR, LS, PS): exactly what `trim()` removes and what
   * the regular-expression class `\s` matches.
   */
  predicate IsJsWhitespace(c: char) {
    || c == '\t' || c == '\U{B}' || c == '\U{C}' || c == '\U{FEFF}'
    || c == ' ' || c == '\U{A0}' || c == '\U{1680}' || ('\U{2000}' <= c <= '\U{200A}')
    || c == '\U{202F}' || c == '\U{205F}' || c == '\U{3000}'
    || c == '\n' || c == '\r' || c == '\U{2028}' || c == '\U{2029}'
  }

  predicate AllWhitespace(s: string) {
    forall i :: 0 <= i < |s| ==> IsJsWhitespace(s[i])
  }

  function UpperChar(c: char): char {
    if IsAsciiLower(c) then (c as int - 32) as char else c
  }

  function LowerChar(c: char): char {
    if IsAsciiUpper(c) then (c as int + 32) as char else c
  }

  /** `toUpperCase()`, restricted to ASCII letters. */
  function ToUpperAscii(s: string): (r: string)
    ensures |r| == |s|
    ensures forall i :: 0 <= i < |s| ==> r[i] == UpperChar(s[i])
  {
    seq(|s|, i requires 0 <= i < |s| => UpperChar(s[i]))
  }

  /** `toLowerCase()`, restricted to ASCII letters. */
  function ToLowerAscii(s: string): (r: string)
    ensures |r| == |s|
    ensures forall i :: 0 <= i < |s| ==> r[i] == LowerChar(s[i])
  {
    seq(|s|, i requires 0 <= i < |s| => LowerChar(s[i]))
  }

  // ---------------------------------------------------------------------
  // trim()

  function TrimStart(s: string): string {
    if |s| > 0 && IsJsWhitespace(s[0]) then TrimStart(s[1..]) else s
  }

  function TrimEnd(s: string): string {
    if |s| > 0 && IsJsWhitespace(s[|s| - 1]) then TrimEnd(s[..|s| - 1]) else s
  }

  /** `s.trim()` */
  function Trim(s: string): string {
    TrimEnd(TrimStart(s))
  }

  lemma {:induction false} TrimStartOfBlank(s: string)
    requires AllWhitespace(s)
    ensures TrimStart(s) == ""
  {
    if |s| > 0 {
      TrimStartOfBlank(s[1..]);
    }
  }

  lemma {:induction false} TrimStartSkipsPadding(pad: string, s: string)
    requires AllWhitespace(pad)
    ensures TrimStart(pad + s) == TrimStart(s)
  {
    if |pad| > 0 {
      assert (pad + s)[0] == pad[0] && (pad + s)[1..] == pad[1..] + s;
      TrimStartSkipsPadding(pad[1..], s);
    } else {
      assert pad + s == s;
    }
  }

  lemma {:induction false} TrimEndSkipsPadding(s: string, pad: string)
    requires AllWhitespace(pad)
    ensures TrimEnd(s + pad) == TrimEnd(s)
  {
    if |pad| > 0 {
      assert (s + pad)[..|s + pad| - 1] == s + pad[..|pad| - 1];
      TrimEndSkipsPadding(s, pad[..|pad| - 1]);
    } else {
      assert s + pad == s;
    }
  }

  lemma {:induction false} TrimStartKeepsTail(s: string, tail: string)
    requires !AllWhitespace(s)
    ensures TrimStart(s + tail) == TrimStart(s) + tail
  {
    if IsJsWhitespace(s[0]) {
      assert (s + tail)[1..] == s[1..] + tail;
      TrimStartKeepsTail(s[1..], tail);
    }
  }

  /** Whitespace around a string never changes what `trim()` makes of it. */
  lemma TrimIgnoresPadding(front: string, s: string, back: string)
    requires AllWhitespace(front) && AllWhitespace(back)
    ensures Trim(front + s + back) == Trim(s)
  {
    assert front + s + back == front + (s + back);
    TrimStartSkipsPadding(front, s + back);
    if AllWhitespace(s) {
      assert AllWhitespace(s + back);
      TrimStartOfBlank(s + back);
      TrimStartOfBlank(s);
    } else {
      TrimStartKeepsTail(s, back);
      TrimEndSkipsPadding(TrimStart(s), back);
    }
  }

  lemma {:induction false} TrimStartStopsAtText(s: string)
    requires !AllWhitespace(s)
    ensures |TrimStart(s)| > 0 && !IsJsWhitespace(TrimStart(s)[0])
  {
    if IsJsWhitespace(s[0]) {
      TrimStartStopsAtText(s[1..]);
    }
  }

  lemma {:induction false} TrimEndKeepsLeadingText(s: string)
    requires |s| > 0 && !IsJsWhitespace(s[0])
    ensures TrimEnd(s) != ""
  {
    if IsJsWhitespace(s[|s| - 1]) {
      TrimEndKeepsLeadingText(s[..|s| - 1]);
    }
  }

  /** `s.trim()` is empty exactly when `s` is nothing but whitespace. */
  lemma BlankTrimIff(s: string)
    ensures Trim(s) == "" <==> AllWhitespace(s)
  {
    if AllWhitespace(s) {
      TrimStartOfBlank(s);
    } else {
      TrimStartStopsAtText(s);
      TrimEndKeepsLeadingText(TrimStart(s));
    }
  }

  /** A string without whitespace is its own trim. */
  lemma {:induction false} TrimOfUnpadded(s: string)
    requires forall i :: 0 <= i < |s| ==> !IsJsWhitespace(s[i])
    ensures Trim(s) == s
  {
  }

  // ---------------------------------------------------------------------
  // replace(/.../g, "") and slice(0, n)

  /** The characters of `s` that `keep` accepts, in order. */
  function Filter(s: string, keep: char -> bool): (r: string)
    ensures |r| <= |s|
    ensures forall i :: 0 <= i < |r| ==> keep(r[i])
  {
    if s == [] then [] else (if keep(s[0]) then [s[0]] else []) + Filter(s[1..], keep)
  }

  lemma {:induction false} FilterAppend(a: string, b: string, keep: char -> bool)
    ensures Filter(a + b, keep) == Filter(a, keep) + Filter(b, keep)
  {
    if a != [] {
      assert (a + b)[1..] == a[1..] + b;
      FilterAppend(a[1..], b, keep);
    } else {
      assert a + b == b;
    }
  }

  lemma {:induction false} FilterKeepsAll(s: string, keep: char -> bool)
    requires forall i :: 0 <= i < |s| ==> keep(s[i])
    ensures Filter(s, keep) == s
  {
    if s != [] {
      FilterKeepsAll(s[1..], keep);
    }
  }

  lemma {:induction false} FilterDropsAll(s: string, keep: char -> bool)
    requires forall i :: 0 <= i < |s| ==> !keep(s[i])
    ensures Filter(s, keep) == ""
  {
    if s != [] {
      FilterDropsAll(s[1..], keep);
    }
  }

  /** Filtering `x + " " + b` keeps what survives of `x`, then all of `b`. */
  lemma FilterSpaceJoin(x: string, b: string, keep: char -> bool)
    requires forall i :: 0 <= i < |b| ==> keep(b[i])
    requires !keep(' ')
    ensures Filter(x + " " + b, keep) == Filter(x, keep) + b
  {
    var xs := x + " ";
    FilterAppend(xs, b, keep);
    FilterAppend(x, " ", keep);
    FilterKeepsAll(b, keep);
    FilterDropsAll(" ", keep);
    assert Filter(xs, keep) == Filter(x, keep);
  }

  /** `s.replace(/\D/g, "")`: the ASCII digits of `s`. */
  function KeepDigits(s: string): string {
    Filter(s, IsAsciiDigit)
  }

  predicate NotWhitespace(c: char) { !IsJsWhitespace(c) }

  /** `s.replace(/\s/g, "")` */
  function RemoveWhitespace(s: string): string {
    Filter(s, NotWhitespace)
  }

  /** `s.slice(0, n)` for n >= 0. */
  function Take(s: string, n: nat): (r: string)
    ensures |r| == if |s| <= n then |s| else n
    ensures r <= s
  {
    if |s| <= n then s else s[..n]
  }

  // ---------------------------------------------------------------------
  // includes, String(number), length

  /** `s.startsWith(t)` */
  predicate StartsWith(s: string, t: string) {
    |t| <= |s| && s[..|t|] == t
  }

  /** `s.includes(t)`: `t` occurs in `s` at some position. */
  predicate Contains(s: string, t: string) {
    StartsWith(s, t) || (|s| > 0 && Contains(s[1..], t))
  }

  /** A found occurrence makes `Contains` true. */
  lemma {:induction false} ContainsAt(s: string, t: string, k: nat)
    requires k + |t| <= |s| && s[k..k + |t|] == t
    ensures Contains(s, t)
  {
    if k > 0 {
      assert s[1..][k - 1..k - 1 + |t|] == t;
      ContainsAt(s[1..], t, k - 1);
    }
  }

  /** A string that lacks one of the characters of `t` does not contain `t`. */
  lemma {:induction false} MissingCharNotContained(s: string, t: string, c: char)
    requires c in t && c !in s
    ensures !Contains(s, t)
  {
    if |s| > 0 {
      assert forall x :: x in s[1..] ==> x in s;
      MissingCharNotContained(s[1..], t, c);
    }
  }

  function DigitChar(d: nat): char
    requires d < 10
  {
    ('0' as int + d) as char
  }

  /** The decimal numeral JavaScript prints for a non-negative integer. */
  function NatToString(n: nat): (r: string)
    ensures |r| > 0
    ensures forall i :: 0 <= i < |r| ==> IsAsciiDigit(r[i])
  {
    if n < 10 then [DigitChar(n)] else NatToString(n / 10) + [DigitChar(n % 10)]
  }

  /** `String(n)` for an integral number (below 1e21 in magnitude in JavaScript). */
  function IntToString(n: int): string {
    if n < 0 then "-" + NatToString(-n) else NatToString(n)
  }

  /** `s.length`: UTF-16 code units, two for a code point above U+FFFF. */
  function Utf16Length(s: string): (r: nat)
    ensures |s| <= r <= 2 * |s|
  {
    if s == [] then 0 else (if s[0] as int >= 0x1_0000 then 2 else 1) + Utf16Length(s[1..])
  }

  /** Below U+10000 every character is one UTF-16 code unit. */
  lemma {:induction false} Utf16LengthOfBmp(s: string)
    ensures (forall i :: 0 <= i < |s| ==> s[i] as int < 0x1_0000) ==> Utf16Length(s) == |s|
  {
    if s != [] {
      Utf16LengthOfBmp(s[1..]);
    }
  }
}
