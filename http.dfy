/**
 * What a handler sends back, and the request-validation layer in front of
 * the handlers (each `check(field, msg).not().isEmpty()` chain).
 */
module Http {
  import opened Js

  /** One entry of `validationResult(req).array()`: the field and the chain's message. */
  datatype FieldError = FieldError(param: string, msg: string)

  /** The outcome of one request. */
  datatype Response<T> =
    | Ok(body: T)                       // 200 with a JSON body
    | Invalid(errors: seq<FieldError>)  // 400 `{errors: [...]}`
    | BadRequest(msg: string)           // 400 `{msg}`
    | Unauthorized(msg: string)         // 401 `{msg}`
    | NotFound(msg: string)             // 404 `{msg}`
    | ServerError(text: string)         // 500 plain text
    | NoResponse                        // the handler threw outside any catch: nothing is sent

  /** express-validator's isEmpty on the value converted to a string: `undefined` becomes `''`. */
  function IsEmpty(v: Value): (empty: bool)
    ensures empty <==> !Truthy(v)
  {
    v.Undefined? || v.s == ""
  }

  /** The error a `check(param, msg).not().isEmpty()` chain reports, if any. */
  function Require(v: Value, param: string, msg: string): (errors: seq<FieldError>)
    ensures errors == [] <==> Truthy(v)
    ensures errors != [] ==> errors == [FieldError(param, msg)]
  {
    if IsEmpty(v) then [FieldError(param, msg)] else []
  }
}
