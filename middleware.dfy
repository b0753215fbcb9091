/** Request middleware and the error dispatcher (utils/middleware.js). */
module Middleware {
  import opened Base
  import opened Strings
  import opened Errors
  import opened Utils

  /** The payload the login route signs: `{ username, id }`. */
  datatype Claims = Claims(username: string, id: Id)

  /** `jwt.verify(token, SECRET)` for a non-empty token: the decoded payload,
      or the message of the JsonWebTokenError the library raises. Tokens
      are signed without an expiry, so no expiry error arises. */
  type TokenVerifier = string -> Result<Claims, string>

  /** The library's message for a missing (undefined or empty) token. */
  const JwtMissing: string := "jwt must be provided"

  /** The part of an Express request the middleware reads and writes. */
  class Request {
    /** `request.get('authorization')`; None when the header is absent. */
    const authorization: Option<string>
    /** `request.token`, unset until the token extractor finds one. */
    var token: Option<string>
    /** `request.user`, the caller's id, unset until the user extractor runs. */
    var user: Option<Id>

    constructor(authorization: Option<string>)
      ensures this.authorization == authorization
      ensures token == None && user == None
    {
      this.authorization := authorization;
      token := None;
      user := None;
    }
  }

  /** What a middleware stage does: call `next()`, or throw. */
  datatype Step = Next | Throw(error: AppError)

  /** `tokenExtractor`: a header whose lower-cased form starts with
      "bearer " yields the header without its first seven characters; any
      other request keeps its token unset. `next()` is always called. */
  method TokenExtractor(request: Request) returns (step: Step)
    modifies request`token
    ensures step == Next
    ensures request.authorization.Some? && StartsWith(ToLower(request.authorization.value), "bearer ") ==>
              request.token == Some(request.authorization.value[7..])
    ensures !(request.authorization.Some? && StartsWith(ToLower(request.authorization.value), "bearer ")) ==>
              request.token == old(request.token)
  {
    var authorization := request.authorization;
    if authorization.Some? && authorization.value != "" && StartsWith(ToLower(authorization.value), "bearer ") {
      request.token := Some(authorization.value[7..]);
    }
    step := Next;
  }

  /** `userExtractor`: verifies the token and sets `request.user` to the
      decoded id. A missing or empty token, or one the library refuses,
      raises a JsonWebTokenError and `next()` is not called. */
  method UserExtractor(request: Request, verify: TokenVerifier) returns (step: Step)
    modifies request`user
    ensures (request.token == None || request.token == Some("")) ==>
              step == Throw(JsonWebTokenError(JwtMissing)) && request.user == old(request.user)
    ensures request.token.Some? && request.token.value != "" && verify(request.token.value).Err? ==>
              step == Throw(JsonWebTokenError(verify(request.token.value).error)) && request.user == old(request.user)
    ensures request.token.Some? && request.token.value != "" && verify(request.token.value).Ok? ==>
              step == Next && request.user == Some(verify(request.token.value).value.id)
  {
    var token := request.token;
    if token == None || token == Some("") {
      return Throw(JsonWebTokenError(JwtMissing));
    }
    var decoded := verify(token.value);
    if decoded.Err? {
      return Throw(JsonWebTokenError(decoded.error));
    }
    request.user := Some(decoded.value.id);
    step := Next;
  }

  /** The JSON body of an error response. */
  datatype Body =
    | ErrorBody(error: string)
    | ErrorFieldBody(error: string, field: Option<string>)
    | ValidationBody(errors: seq<LocalizedError>)

  /** The error handler either writes one response or passes the error on
      with `next(error)`. */
  datatype Reply = Respond(status: int, body: Body) | Forward(error: AppError)

  /** `errorHandler(error, request, response, next)`: a switch on
      `error.name`; an unrecognised name is forwarded unchanged. */
  function ErrorHandler(error: AppError, t: Translator): (r: Reply)
    ensures r.Forward? <==> error.OtherError?
    ensures (error.OtherError? ==> error.name !in HandledNames) ==> (r.Forward? <==> error.Name() !in HandledNames)
    ensures r.Forward? ==> r.error == error
    ensures error.HasCode() ==> r.Respond? && r.status == error.Code()
    ensures error.CastError? || error.ValidationError? || error.TypeError? || error.SyntaxError? ==>
              r.Respond? && r.status == 400
    ensures error.JsonWebTokenError? && ToLower(error.message) == JwtMissing ==>
              r == Respond(401, ErrorBody(t("error-jsonwebtoken-unlogged", map[])))
    ensures error.JsonWebTokenError? && ToLower(error.message) != JwtMissing ==>
              r == Respond(401, ErrorBody(t("error-jsonwebtoken-session", map["message" := PStr(error.message)])))
    ensures error.AuthenticationError? ==> r == Respond(400, ErrorFieldBody(error.message, error.field))
  {
    NamesOfKinds(error);
    match error
    case UnknownResourceError(message) => Respond(error.Code(), ErrorBody(message))
    case CastError(_) => Respond(400, ErrorBody(t("error-malformattedid", map[])))
    case ValidationError(modelMessage, errors) =>
      Respond(400, ValidationBody(LocalizeValidationErrors(modelMessage, errors, t)))
    case PermissionError(message) => Respond(error.Code(), ErrorBody(message))
    case JsonWebTokenError(message) =>
      if ToLower(message) == JwtMissing then
        Respond(401, ErrorBody(t("error-jsonwebtoken-unlogged", map[])))
      else
        Respond(401, ErrorBody(t("error-jsonwebtoken-session", map["message" := PStr(message)])))
    case AuthenticationError(message, field) => Respond(error.Code(), ErrorFieldBody(message, field))
    case TypeError(_) => Respond(400, ErrorBody("Type error"))
    case SyntaxError(_) => Respond(400, ErrorBody("Syntax error"))
    case OtherError(_, _) => Forward(error)
  }

  /** `unknownEndpoint`: every request no router answered gets a 404. */
  function UnknownEndpoint(t: Translator): (r: Reply)
    ensures r.Respond? && r.status == 404
  {
    Respond(404, ErrorBody(t("Unknown endpoint", map[])))
  }
}
