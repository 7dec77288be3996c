/**
 * The validators a parameter may carry (`IValidator`): `NonEmptyValidator`,
 * `RegexValidator` and `LongValidator`. A validator maps a resolved value to an error
 * message, None (Java's null) when the value is valid; a validator can also throw.
 */
module Validators {
  import opened Wrappers
  import opened Errors
  import opened JavaText
  import opened Values

  /**
   * `String.matches(regex)`: whether the whole text matches the pattern. The regular
   * expression engine is outside the model and is passed in.
   */
  type RegexEngine = (string, string) -> bool

  datatype Validator =
    | NonEmpty                          // NonEmptyValidator
    | Regex(pattern: string)            // RegexValidator(regex)
    | LongRange(min: Long, max: Long)   // LongValidator(min, max)

  const EMPTY_MESSAGE := "The value must not be empty"
  const NULL_MESSAGE := "The value cannot be null"
  const MISMATCH_MESSAGE := "The value doesn't match the required regex expression: "

  /** `String.format("The value must be between %d and %d", min, max)`. */
  function RangeMessage(min: int, max: int): string {
    "The value must be between " + DecimalString(min) + " and " + DecimalString(max)
  }

  /** `NonEmptyValidator.validateValue`: the value is cast to String, then checked for null or blank. */
  function ValidateNonEmpty(value: Value): (r: Result<Option<string>, RuntimeError>)
    ensures value.Null? ==> r == Ok(Some(EMPTY_MESSAGE))
    ensures value.Str? ==> r.Ok? && (r.value.None? <==> exists i :: 0 <= i < |value.s| && value.s[i] > ' ')
    ensures value.Str? && r.value.Some? ==> r.value.value == EMPTY_MESSAGE
    ensures value.Bool? || value.Num? ==> r == Err(ClassCast)
  {
    match value
    case Null => Ok(Some(EMPTY_MESSAGE))
    case Str(s) =>
      TrimEmptyIffBlank(s);
      if |Trim(s)| == 0 then Ok(Some(EMPTY_MESSAGE)) else Ok(None)
    case _ => Err(ClassCast)
  }

  /** `RegexValidator.validateValue`: null is refused, otherwise the whole text must match. */
  function ValidateRegex(pattern: string, value: Value, matches: RegexEngine): (r: Result<Option<string>, RuntimeError>)
    ensures value.Null? ==> r == Ok(Some(NULL_MESSAGE))
    ensures value.Str? ==> r.Ok? && (r.value.None? <==> matches(value.s, pattern))
    ensures value.Str? && r.value.Some? ==> r.value.value == MISMATCH_MESSAGE + pattern
    ensures value.Bool? || value.Num? ==> r == Err(ClassCast)
  {
    match value
    case Null => Ok(Some(NULL_MESSAGE))
    case Str(s) => if matches(s, pattern) then Ok(None) else Ok(Some(MISMATCH_MESSAGE + pattern))
    case _ => Err(ClassCast)
  }

  /**
   * `LongValidator.validateValue`: reads the value through `Long.valueOf(value.toString())`,
   * then accepts it when `min <= value <= max`.
   */
  function ValidateLong(min: Long, max: Long, value: Value): (r: Result<Option<string>, RuntimeError>)
    ensures value.Null? ==> r == Err(NullPointer)
    ensures r.Ok? && r.value.Some? ==> r.value.value == RangeMessage(min, max)
  {
    match ToJavaString(value)
    case None => Err(NullPointer)
    case Some(text) =>
      match ParseInteger(text, MIN_LONG, MAX_LONG)
      case None => Err(NumberFormat)
      case Some(n) =>
        if n < min || n > max then Ok(Some(RangeMessage(min, max))) else Ok(None)
  }

  /** `validator.validateValue(value)`. */
  function ValidateValue(v: Validator, value: Value, matches: RegexEngine): Result<Option<string>, RuntimeError> {
    match v
    case NonEmpty => ValidateNonEmpty(value)
    case Regex(p) => ValidateRegex(p, value, matches)
    case LongRange(min, max) => ValidateLong(min, max, value)
  }

  /**
   * An integer value of any width is judged by its numeric value: it passes exactly when it
   * lies within the inclusive bounds, and otherwise the message names both bounds.
   */
  lemma {:induction false} LongValidatorRange(min: Long, max: Long, n: Long)
    ensures ValidateLong(min, max, Num(n)) == if min <= n <= max then Ok(None) else Ok(Some(RangeMessage(min, max)))
  {
    DecimalRoundTrip(n, MIN_LONG, MAX_LONG);
  }

  /** A String value is judged by the number its text spells; text that is not a long number throws. */
  lemma LongValidatorText(min: Long, max: Long, s: string)
    ensures ParseInteger(s, MIN_LONG, MAX_LONG).None? ==> ValidateLong(min, max, Str(s)) == Err(NumberFormat)
    ensures ParseInteger(s, MIN_LONG, MAX_LONG).Some? ==>
      var n := ParseInteger(s, MIN_LONG, MAX_LONG).value;
      ValidateLong(min, max, Str(s)) == if min <= n <= max then Ok(None) else Ok(Some(RangeMessage(min, max)))
  {
  }

  /** A Boolean value cannot be read as a long: the validator throws NumberFormatException. */
  lemma LongValidatorBoolean(min: Long, max: Long, b: bool)
    ensures ValidateLong(min, max, Bool(b)) == Err(NumberFormat)
  {
    var t := if b then "true" else "false";
    assert !IsDigit(t[0]) && t[0] !in "+-";
  }
}
