/** The field validator `validate` of app.ts: a `string | number` value checked
    against optional constraints that combine by AND. */
module Validation {
  import opened Wrappers

  /** The `value: string | number` of a descriptor; numbers are modelled as integers. */
  datatype Value = Str(s: string) | Num(n: int)

  /** The `Validateble` descriptor. An absent (`undefined`/`null`) bound is `None`;
      an absent `required` is `false`, since only its truthiness is tested. */
  datatype Validatable = Validatable(
    value: Value,
    required: bool,
    minLength: Option<int>,
    maxLength: Option<int>,
    min: Option<int>,
    max: Option<int>)

  // ---------------------------------------------------------------------------
  // String.prototype.trim

  /** The code points JavaScript's `trim` strips: the WhiteSpace and LineTerminator
      productions of the ECMAScript language specification (TAB, VT, FF, SP, NBSP,
      ZWNBSP, the Unicode space separators, LF, CR, LS and PS). */
  predicate IsWhitespace(c: char) {
    var k := c as int;
    k == 0x09 || k == 0x0A || k == 0x0B || k == 0x0C || k == 0x0D || k == 0x20 ||
    k == 0xA0 || k == 0x1680 || (0x2000 <= k <= 0x200A) || k == 0x2028 ||
    k == 0x2029 || k == 0x202F || k == 0x205F || k == 0x3000 || k == 0xFEFF
  }

  predicate AllWhitespace(s: string) {
    forall i :: 0 <= i < |s| ==> IsWhitespace(s[i])
  }

  /** Drops the leading whitespace: the result is a suffix of `s`, what was dropped
      is all whitespace, and the result does not start with whitespace. */
  function TrimStart(s: string): (r: string)
    ensures |r| <= |s| && r == s[|s| - |r|..]
    ensures AllWhitespace(s[..|s| - |r|])
    ensures r != [] ==> !IsWhitespace(r[0])
  {
    if s != [] && IsWhitespace(s[0]) then
      var r := TrimStart(s[1..]);
      assert s[..|s| - |r|] == [s[0]] + s[1..][..|s| - 1 - |r|];
      r
    else
      s
  }

  /** Drops the trailing whitespace: the result is a prefix of `s`, what was dropped
      is all whitespace, and the result does not end with whitespace. */
  function TrimEnd(s: string): (r: string)
    ensures |r| <= |s| && r == s[..|r|]
    ensures AllWhitespace(s[|r|..])
    ensures r != [] ==> !IsWhitespace(r[|r| - 1])
  {
    if s != [] && IsWhitespace(s[|s| - 1]) then
      var r := TrimEnd(s[..|s| - 1]);
      assert s[|r|..] == s[..|s| - 1][|r|..] + [s[|s| - 1]];
      r
    else
      s
  }

  /** `String.prototype.trim`: no longer than `s`, with whitespace at neither end.
      What is dropped at each end is said by the contracts of `TrimStart` and `TrimEnd`. */
  function Trim(s: string): (r: string)
    ensures |r| <= |s|
    ensures r != [] ==> !IsWhitespace(r[0]) && !IsWhitespace(r[|r| - 1])
  {
    TrimEnd(TrimStart(s))
  }

  /** The trimmed string is empty exactly when the string is blank. */
  lemma TrimEmptyIffBlank(s: string)
    ensures Trim(s) == [] <==> AllWhitespace(s)
  {
    var t := TrimStart(s);
    if t == [] {
      assert s[..|s|] == s;
    } else {
      assert !IsWhitespace(s[|s| - |t|]);
    }
  }

  /** A string without whitespace is its own trim. */
  lemma TrimWithoutWhitespace(s: string)
    requires forall i :: 0 <= i < |s| ==> !IsWhitespace(s[i])
    ensures Trim(s) == s
  {
    assert TrimStart(s) == s;
    assert TrimEnd(s) == s;
  }

  // ---------------------------------------------------------------------------
  // Number.prototype.toString for integers

  function DigitChar(d: nat): (c: char)
    requires d < 10
    ensures '0' <= c <= '9'
  {
    ('0' as int + d) as char
  }

  /** The decimal digits of a natural number, most significant first. */
  function NatToString(n: nat): (r: string)
    ensures r != []
    ensures forall i :: 0 <= i < |r| ==> '0' <= r[i] <= '9'
    decreases n
  {
    if n < 10 then [DigitChar(n)] else NatToString(n / 10) + [DigitChar(n % 10)]
  }

  /** `n.toString()`: a minus sign for negative numbers, then the decimal digits. */
  function NumberToString(n: int): (r: string)
    ensures r != []
    ensures forall i :: 0 <= i < |r| ==> !IsWhitespace(r[i])
  {
    if n < 0 then "-" + NatToString(-n) else NatToString(n)
  }

  /** The value a string of decimal digits denotes. */
  function DecimalValue(s: string): int {
    if s == [] then 0 else DecimalValue(s[..|s| - 1]) * 10 + (s[|s| - 1] as int - '0' as int)
  }

  /** Reading back the decimal form of a number gives the number. */
  lemma {:induction false} NatToStringRoundTrip(n: nat)
    ensures DecimalValue(NatToString(n)) == n
    decreases n
  {
    var r := NatToString(n);
    if n >= 10 {
      NatToStringRoundTrip(n / 10);
      assert r[..|r| - 1] == NatToString(n / 10);
    }
  }

  /** `toString()` as applied by `validate` to either kind of value. */
  function ValueToString(v: Value): string {
    match v
    case Str(s) => s
    case Num(n) => NumberToString(n)
  }

  // ---------------------------------------------------------------------------
  // The constraints and validate

  /** `required`: the trimmed `toString()` of the value is not empty. */
  predicate RequiredHolds(input: Validatable) {
    input.required ==> |Trim(ValueToString(input.value))| != 0
  }

  /** `minLength`, checked on the untrimmed length of a string value only. */
  predicate MinLengthHolds(input: Validatable) {
    input.minLength.Some? && input.value.Str? ==> |input.value.s| >= input.minLength.value
  }

  /** `maxLength`, checked on the untrimmed length of a string value only. */
  predicate MaxLengthHolds(input: Validatable) {
    input.maxLength.Some? && input.value.Str? ==> |input.value.s| <= input.maxLength.value
  }

  /** `min`, checked on a number value only. */
  predicate MinHolds(input: Validatable) {
    input.min.Some? && input.value.Num? ==> input.value.n >= input.min.value
  }

  /** `max`, checked on a number value only. */
  predicate MaxHolds(input: Validatable) {
    input.max.Some? && input.value.Num? ==> input.value.n <= input.max.value
  }

  /** What `validate` accepts: every constraint it checks holds. */
  predicate Satisfies(input: Validatable) {
    RequiredHolds(input) && MinLengthHolds(input) && MaxLengthHolds(input) &&
    MinHolds(input) && MaxHolds(input)
  }

  /** `validate`: starts from `true` and folds each present constraint in with `&&`. */
  method Validate(input: Validatable) returns (isValid: bool)
    ensures isValid <==> Satisfies(input)
  {
    isValid := true;
    if input.required {
      isValid := isValid && |Trim(ValueToString(input.value))| != 0;
    }
    if input.minLength.Some? && input.value.Str? {
      isValid := isValid && |input.value.s| >= input.minLength.value;
    }
    if input.maxLength.Some? && input.value.Str? {
      isValid := isValid && |input.value.s| <= input.maxLength.value;
    }
    if input.min.Some? && input.value.Num? {
      isValid := isValid && input.value.n >= input.min.value;
    }
    if input.max.Some? && input.value.Num? {
      isValid := isValid && input.value.n <= input.max.value;
    }
  }

  /** `validate` in terms of the raw value alone: `required` rejects only blank
      strings and never a number (0 included), the length bounds measure the
      untrimmed string and apply to strings only, the numeric bounds apply to
      numbers only. */
  lemma SatisfiesIff(input: Validatable)
    ensures Satisfies(input) <==>
      (input.required && input.value.Str? ==> !AllWhitespace(input.value.s)) &&
      (input.value.Str? && input.minLength.Some? ==> |input.value.s| >= input.minLength.value) &&
      (input.value.Str? && input.maxLength.Some? ==> |input.value.s| <= input.maxLength.value) &&
      (input.value.Num? && input.min.Some? ==> input.value.n >= input.min.value) &&
      (input.value.Num? && input.max.Some? ==> input.value.n <= input.max.value)
  {
    match input.value
    case Str(s) =>
      TrimEmptyIffBlank(s);
    case Num(n) =>
      RequiredNumberPasses(n);
  }

  /** `required` on a number always passes, whatever the number (0 included):
      its `toString()` is never blank. */
  lemma RequiredNumberPasses(n: int)
    ensures |Trim(ValueToString(Num(n)))| != 0
  {
    var digits := NumberToString(n);
    TrimWithoutWhitespace(digits);
    assert Trim(digits) == digits != [];
  }

  /** With no constraint at all every value is accepted. */
  lemma UnconstrainedAccepts(v: Value)
    ensures Satisfies(Validatable(v, false, None, None, None, None))
  {
  }

  /** Blank strings fail `required`. */
  lemma BlankFailsRequired()
    ensures !Satisfies(Validatable(Str(""), true, None, None, None, None))
    ensures !Satisfies(Validatable(Str(" \t "), true, None, None, None, None))
  {
    var blank := " \t ";
    assert AllWhitespace(blank);
    SatisfiesIff(Validatable(Str(blank), true, None, None, None, None));
  }

  /** "abcde" meets `required` together with `minLength` 5. */
  lemma MinLengthBoundary()
    ensures Satisfies(Validatable(Str("abcde"), true, Some(5), None, None, None))
  {
    var word := "abcde";
    assert !IsWhitespace(word[0]);
    SatisfiesIff(Validatable(Str(word), true, Some(5), None, None, None));
  }

  /** Two letters padded with spaces meet `minLength` 5: the untrimmed length is counted. */
  lemma MinLengthUntrimmed()
    ensures Satisfies(Validatable(Str("  ab  "), true, Some(5), None, None, None))
  {
    var padded := "  ab  ";
    assert !IsWhitespace(padded[2]);
    SatisfiesIff(Validatable(Str(padded), true, Some(5), None, None, None));
  }

  /** 4 lies within `min` 1 and `max` 5 and 6 does not. */
  lemma NumericBoundary()
    ensures Satisfies(Validatable(Num(4), false, None, None, Some(1), Some(5)))
    ensures !Satisfies(Validatable(Num(6), false, None, None, Some(1), Some(5)))
  {
  }

  /** The number 0 passes `required`. */
  lemma ZeroPassesRequired()
    ensures Satisfies(Validatable(Num(0), true, None, None, None, None))
  {
    SatisfiesIff(Validatable(Num(0), true, None, None, None, None));
  }

  /** A string value is never held to `min`/`max`: "9" passes `min` 1, `max` 5. */
  lemma StringIgnoresBounds()
    ensures Satisfies(Validatable(Str("9"), true, None, None, Some(1), Some(5)))
  {
    var nine := "9";
    assert !IsWhitespace(nine[0]);
    SatisfiesIff(Validatable(Str(nine), true, None, None, Some(1), Some(5)));
  }
}
