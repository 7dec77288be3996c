/**
 * The errors of the parser: the codes of `CmdExceptionCode`, the carrier `CmdException`
 * (code, offending argument, message, cause) and the unchecked Java exceptions that
 * the parser lets escape.
 */
module Errors {
  import opened Wrappers

  /** The kinds of `CmdException`: three schema (build) errors and nine dispatch errors. */
  datatype ErrorCode =
    | PARSE_DUPLICATE_COMMAND_NAME
    | PARSE_DUPLICATE_DEFAULT_COMMAND
    | PARSE_PARAM_NAME_UNDEFINED
    | DISPATCH_DUPLICATE_COMMAND
    | DISPATCH_UNKNOWN_COMMAND
    | DISPATCH_NO_COMMAND
    | DISPATCH_UNKNOWN_PARAMETER
    | DISPATCH_MISSING_REQUIRED_PARAMETER
    | DISPATCH_EMPTY_PARAMETER
    | DISPATCH_UNSUPPORTED_PARAMETER_TYPE
    | DISPATCH_VALIDATION_ERROR
    | DISPATCH_INVOKE_ERROR

  /** Unchecked Java exceptions raised by library calls inside the parser. */
  datatype RuntimeError =
    | NumberFormat   // Byte/Short/Integer/Long parsing of malformed or out-of-range text
    | ClassCast      // a validator cast a value of the wrong kind to String
    | NullPointer    // a validator called toString() on null

  /** A `CmdException`: its code, the argument that caused it (may be null), its message and its cause. */
  datatype CmdError = CmdError(code: ErrorCode, argument: Option<string>, message: string, cause: Option<RuntimeError>)

  /** Anything the parser can throw: a `CmdException` or an unchecked exception. */
  datatype Failure = Cmd(error: CmdError) | Unchecked(exception: RuntimeError)

  function Error(code: ErrorCode, argument: string, message: string): CmdError {
    CmdError(code, Some(argument), message, None)
  }

  /**
   * How `runCommand` treats anything thrown inside it: a `CmdException` is re-thrown,
   * every other exception becomes DISPATCH_INVOKE_ERROR with that exception as cause.
   */
  function AsInvokeError(f: Failure): (e: CmdError)
    ensures f.Cmd? ==> e == f.error
    ensures f.Unchecked? ==> e.code == DISPATCH_INVOKE_ERROR && e.cause == Some(f.exception)
  {
    match f
    case Cmd(e) => e
    case Unchecked(r) => CmdError(DISPATCH_INVOKE_ERROR, None, "Unable to invoke command", Some(r))
  }
}
