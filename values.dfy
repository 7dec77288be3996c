/**
 * Parameter types and values: the type tag that replaces a parameter's `Class`, the
 * values a resolved parameter can take, the coercion of an option's text to a value
 * (`getParameterValue`) and the zero value of a type (`getDefaultValue`).
 */
module Values {
  import opened Wrappers
  import opened Errors
  import opened JavaText

  /** The declared type of a parameter; `OtherType` is any class the coercion does not list. */
  datatype ParamType =
    | StringType
    | BooleanType
    | ByteType
    | ShortType
    | IntType
    | LongType
    | OtherType(simpleName: string)

  /** `Class.getSimpleName()` of the declared type. */
  function TypeName(t: ParamType): string {
    match t
    case StringType => "String"
    case BooleanType => "boolean"
    case ByteType => "byte"
    case ShortType => "short"
    case IntType => "int"
    case LongType => "long"
    case OtherType(n) => n
  }

  predicate IsIntegral(t: ParamType) {
    t.ByteType? || t.ShortType? || t.IntType? || t.LongType?
  }

  /** The inclusive range of an integral type. */
  function MinOf(t: ParamType): int
    requires IsIntegral(t)
  {
    match t
    case ByteType => -0x80
    case ShortType => -0x8000
    case IntType => -0x8000_0000
    case LongType => MIN_LONG
  }

  function MaxOf(t: ParamType): int
    requires IsIntegral(t)
  {
    match t
    case ByteType => 0x7F
    case ShortType => 0x7FFF
    case IntType => 0x7FFF_FFFF
    case LongType => MAX_LONG
  }

  /** A resolved parameter value: null, a String, a Boolean, or a boxed Byte/Short/Integer/Long. */
  datatype Value = Null | Str(s: string) | Bool(b: bool) | Num(n: int)

  /** `value.toString()`; None stands for the NullPointerException on null. */
  function ToJavaString(v: Value): Option<string> {
    match v
    case Null => None
    case Str(s) => Some(s)
    case Bool(b) => Some(if b then "true" else "false")
    case Num(n) => Some(DecimalString(n))
  }

  /**
   * `getParameterValue(type, name, value)`: coerces an option's text (None when the option
   * was given without a value) to a value of the declared type. `name` is the name under
   * which the value was found, reported by DISPATCH_EMPTY_PARAMETER.
   */
  function Coerce(t: ParamType, name: string, text: Option<string>): (r: Result<Value, Failure>)
  {
    if t.StringType? && text.Some? then Ok(Str(text.value))
    else if t.BooleanType? then
      if text.Some? then Ok(Bool(ParseBoolean(text.value))) else Ok(Bool(true))
    else if text.None? then
      Err(Cmd(Error(DISPATCH_EMPTY_PARAMETER, name, "Parameter cannot be empty")))
    else if IsIntegral(t) then
      match ParseInteger(text.value, MinOf(t), MaxOf(t))
      case Some(n) => Ok(Num(n))
      case None => Err(Unchecked(NumberFormat))
    else
      Err(Cmd(Error(DISPATCH_UNSUPPORTED_PARAMETER_TYPE, TypeName(t), "Unsupported parameter type")))
  }

  /** `getDefaultValue(type)`: the value of a parameter that was neither given nor has a default. */
  function ZeroValue(t: ParamType): (v: Value)
    ensures t.BooleanType? <==> v == Bool(false)
    ensures IsIntegral(t) <==> v == Num(0)
    ensures t.StringType? || t.OtherType? <==> v.Null?
  {
    if t.BooleanType? then Bool(false)
    else if IsIntegral(t) then Num(0)
    else Null
  }

  /** Every outcome of the coercion, case by case, as the type and the presence of text decide it. */
  lemma CoerceCases(t: ParamType, name: string, text: Option<string>)
    ensures t.StringType? && text.Some? ==> Coerce(t, name, text) == Ok(Str(text.value))
    ensures t.BooleanType? && text.None? ==> Coerce(t, name, text) == Ok(Bool(true))
    ensures t.BooleanType? && text.Some? ==>
      Coerce(t, name, text).Ok? && (Coerce(t, name, text).value == Bool(true) <==> EqualsIgnoreCase(text.value, "true"))
    ensures !t.BooleanType? && text.None? ==>
      Coerce(t, name, text) == Err(Cmd(CmdError(DISPATCH_EMPTY_PARAMETER, Some(name), "Parameter cannot be empty", None)))
    ensures t.OtherType? && text.Some? ==>
      Coerce(t, name, text) == Err(Cmd(CmdError(DISPATCH_UNSUPPORTED_PARAMETER_TYPE, Some(t.simpleName), "Unsupported parameter type", None)))
    ensures IsIntegral(t) && text.Some? ==>
      match ParseInteger(text.value, MinOf(t), MaxOf(t))
      case Some(n) => Coerce(t, name, text) == Ok(Num(n))
      case None => Coerce(t, name, text) == Err(Unchecked(NumberFormat))
  {
  }

  /** A boolean option never fails to coerce: no text other than "true" is an error, it is false. */
  lemma BooleanNeverFails(name: string, text: Option<string>)
    ensures Coerce(BooleanType, name, text).Ok?
    ensures text.Some? && !EqualsIgnoreCase(text.value, "true") ==> Coerce(BooleanType, name, text) == Ok(Bool(false))
  {
  }

  /** An integral value always fits its declared type. */
  lemma CoercedIntegralInRange(t: ParamType, name: string, text: Option<string>)
    requires IsIntegral(t) && Coerce(t, name, text).Ok?
    ensures Coerce(t, name, text).value.Num?
    ensures MinOf(t) <= Coerce(t, name, text).value.n <= MaxOf(t)
  {
  }

  /** Coercion never reports an unknown option, a missing parameter or a validation error. */
  lemma CoerceErrorCodes(t: ParamType, name: string, text: Option<string>)
    requires Coerce(t, name, text).Err? && Coerce(t, name, text).error.Cmd?
    ensures Coerce(t, name, text).error.error.code in {DISPATCH_EMPTY_PARAMETER, DISPATCH_UNSUPPORTED_PARAMETER_TYPE}
  {
  }

  /** Coercing the printed form of an in-range integer gives that integer back. */
  lemma CoerceDecimalRoundTrip(t: ParamType, name: string, n: int)
    requires IsIntegral(t) && MinOf(t) <= n <= MaxOf(t)
    ensures Coerce(t, name, Some(DecimalString(n))) == Ok(Num(n))
  {
    DecimalRoundTrip(n, MinOf(t), MaxOf(t));
  }
}
