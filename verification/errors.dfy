/** The API's error classes and the error handler that turns a thrown value into
    an HTTP reply. */
module Errors {
  import opened Wrappers

  /** `CustomError` and its three subclasses. */
  datatype ErrorKind = Custom | NotFound | BadRequest | NotAuthorised

  datatype ApiError = ApiError(kind: ErrorKind, message: string)

  /** What a request handler can throw: one of the error classes, a failed
      schema parse, or any other error. */
  datatype Thrown = Api(api: ApiError) | Validation | Generic(message: string)

  function Name(k: ErrorKind): string {
    match k
    case Custom => "CustomError"
    case NotFound => "NotFoundError"
    case BadRequest => "BadRequestError"
    case NotAuthorised => "NotAuthorisedError"
  }

  function Code(k: ErrorKind): (r: int)
    ensures 400 <= r <= 500
    ensures r == 500 <==> k == Custom
  {
    match k
    case Custom => 500
    case NotFound => 404
    case BadRequest => 400
    case NotAuthorised => 401
  }

  /** `toJSON()`: exactly the name, the code and the message. */
  datatype ErrorJson = ErrorJson(name: string, code: int, message: string)

  function ToJSON(e: ApiError): (r: ErrorJson)
    ensures r.code == Code(e.kind) && r.message == e.message
  {
    ErrorJson(Name(e.kind), Code(e.kind), e.message)
  }

  /** Reads the error class back from a serialised error. */
  function FromJSON(j: ErrorJson): Option<ApiError> {
    if j.name == "CustomError" && j.code == 500 then Some(ApiError(Custom, j.message))
    else if j.name == "NotFoundError" && j.code == 404 then Some(ApiError(NotFound, j.message))
    else if j.name == "BadRequestError" && j.code == 400 then Some(ApiError(BadRequest, j.message))
    else if j.name == "NotAuthorisedError" && j.code == 401 then Some(ApiError(NotAuthorised, j.message))
    else None
  }

  /** The serialised form identifies the error completely. */
  lemma JSONRoundTrip(e: ApiError)
    ensures FromJSON(ToJSON(e)) == Some(e)
  {
  }

  /** Name and code always agree: no two classes share either. */
  lemma {:induction false} NamesAndCodesDistinct(a: ErrorKind, b: ErrorKind)
    ensures Name(a) == Name(b) <==> a == b
    ensures Code(a) == Code(b) <==> a == b
  {
    if a != b {
      assert Name(a)[0] != Name(b)[0] || Name(a)[3] != Name(b)[3];
    }
  }

  datatype Body = ErrorBody(error: ErrorJson) | ValidationBody(name: string) | NotOk

  datatype Reply = Reply(status: int, body: Body)

  /** `fastifyErrorHandler`. */
  function HandleError(t: Thrown): (r: Reply)
    ensures r.status == 500 <==> t.Generic? || (t.Api? && t.api.kind == Custom)
    ensures t.Api? ==> r.body.ErrorBody? && r.status == r.body.error.code &&
                       FromJSON(r.body.error) == Some(t.api)
    ensures t.Validation? ==> r.status == 400 && r.body == ValidationBody("ValidationError")
    ensures t.Generic? ==> r.body == NotOk
    ensures r.status in {400, 401, 404, 500}
  {
    match t
    case Api(e) => Reply(Code(e.kind), ErrorBody(ToJSON(e)))
    case Validation => Reply(400, ValidationBody("ValidationError"))
    case Generic(_) => Reply(500, NotOk)
  }
}
