/** The errors a request can raise. The three classes of the backend
    (the files under utils/errors) fix `name` and `code` in their constructors; the
    others come from the database layer, the token library or the runtime
    and are told apart by their `name`. */
module Errors {
  import opened Base

  /** One entry of a database validation error's `errors` object. */
  datatype FieldError = FieldError(kind: string, minlength: Option<int>)

  datatype AppError =
    /** `new AuthenticationError(message, field)`; `field` is undefined when omitted. */
    | AuthenticationError(message: string, field: Option<string>)
    /** `new UnknownResourceError(message)`; an omitted message reads as "". */
    | UnknownResourceError(message: string)
    /** `new PermissionError(message)` */
    | PermissionError(message: string)
    /** A malformed document id. */
    | CastError(message: string)
    /** A failed schema validation: `_message` and the `errors` entries in key order. */
    | ValidationError(message: string, errors: seq<(string, FieldError)>)
    /** Raised by the token library on a missing or invalid token. */
    | JsonWebTokenError(message: string)
    /** The runtime's error for a property read on null or a call of a non-function. */
    | TypeError(message: string)
    | SyntaxError(message: string)
    /** Any other error; `name` is none of the eight names above. */
    | OtherError(name: string, message: string)
  {
    /** `error.name` */
    function Name(): string
    {
      match this
      case AuthenticationError(_, _) => "AuthenticationError"
      case UnknownResourceError(_) => "UnknownResourceError"
      case PermissionError(_) => "PermissionError"
      case CastError(_) => "CastError"
      case ValidationError(_, _) => "ValidationError"
      case JsonWebTokenError(_) => "JsonWebTokenError"
      case TypeError(_) => "TypeError"
      case SyntaxError(_) => "SyntaxError"
      case OtherError(n, _) => n
    }

    /** The three backend classes carry a status `code`. */
    predicate HasCode()
    {
      AuthenticationError? || UnknownResourceError? || PermissionError?
    }

    /** `error.code` as each constructor sets it. */
    function Code(): (c: int)
      requires HasCode()
      ensures AuthenticationError? ==> c == 400
      ensures PermissionError? ==> c == 401
      ensures UnknownResourceError? ==> (c == 400 <==> message != "") && (c == 404 <==> message == "")
    {
      match this
      case AuthenticationError(_, _) => 400
      case UnknownResourceError(m) => if m != "" then 400 else 404
      case PermissionError(_) => 401
    }
  }

  /** The runtime's message for a property read on a document the store
      did not find (`null`). */
  const NullRead: string := "Cannot read properties of null"

  /** The names the error handler recognises. */
  const HandledNames: set<string> := {
    "UnknownResourceError", "CastError", "ValidationError", "PermissionError",
    "JsonWebTokenError", "AuthenticationError", "TypeError", "SyntaxError"
  }

  /** Only `OtherError` carries a name outside the recognised ones, and each
      constructor has its own name. */
  lemma NamesOfKinds(e: AppError)
    ensures !e.OtherError? ==> e.Name() in HandledNames
    ensures e.AuthenticationError? <==> e.Name() == "AuthenticationError" && !e.OtherError?
    ensures e.UnknownResourceError? <==> e.Name() == "UnknownResourceError" && !e.OtherError?
    ensures e.PermissionError? <==> e.Name() == "PermissionError" && !e.OtherError?
  {
  }

  /** The status code does not depend on the message or field of an
      AuthenticationError or a PermissionError, and an UnknownResourceError
      built with a message is a 400. */
  lemma CodesOfClasses(m1: string, m2: string, f1: Option<string>, f2: Option<string>)
    ensures AuthenticationError(m1, f1).Code() == AuthenticationError(m2, f2).Code() == 400
    ensures PermissionError(m1).Code() == PermissionError(m2).Code() == 401
    ensures m1 != "" ==> UnknownResourceError(m1).Code() == 400
    ensures UnknownResourceError("").Code() == 404
  {
  }
}
