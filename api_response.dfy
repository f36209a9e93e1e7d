/**
  The response envelope every endpoint returns (ApiResponse): a status code,
  a message, a payload and a map of field errors. Success factories never
  carry errors and failure factories never carry a payload. The envelope is
  serialised with JsonInclude.NON_NULL, so a null member is left out of the
  JSON object. HttpStatus arguments are given by their value(), and the
  generic payload by its JSON text.
*/
module ApiResponses {
  import opened Wrappers

  /** The payload `T data`, as the JSON text Jackson writes for it. */
  type Payload = string

  datatype ApiResponse = ApiResponse(
    code: int,
    message: Option<string>,
    data: Option<Payload>,
    errors: Option<map<string, string>>)

  const DefaultSuccessMessage := "操作成功"
  const InvalidParamsMessage := "参数验证失败"
  const HttpOk := 200
  const HttpBadRequest := 400

  /** The JSON members the envelope is written with, in declaration order:
      `code` is a primitive and always present, the rest only when non-null. */
  function JsonMembers(r: ApiResponse): (names: seq<string>)
    ensures "code" in names
    ensures "message" in names <==> r.message.Some?
    ensures "data" in names <==> r.data.Some?
    ensures "errors" in names <==> r.errors.Some?
  {
    ["code"]
    + (if r.message.Some? then ["message"] else [])
    + (if r.data.Some? then ["data"] else [])
    + (if r.errors.Some? then ["errors"] else [])
  }

  // ---------------------------------------------------------------- success

  /** success(code, message, data) and success(status, message, data); every
      other success factory fills in some of these. */
  function Success(code: int, message: Option<string>, data: Option<Payload>): (r: ApiResponse)
    ensures r.code == code && r.message == message && r.data == data
    ensures r.errors.None?
    ensures "errors" !in JsonMembers(r)
  {
    ApiResponse(code, message, data, None)
  }

  /** success(): 200 with the default message and nothing else. */
  function SuccessDefault(): (r: ApiResponse)
    ensures r == Success(HttpOk, Some(DefaultSuccessMessage), None)
    ensures JsonMembers(r) == ["code", "message"]
  {
    Success(HttpOk, Some(DefaultSuccessMessage), None)
  }

  /** success(message): 200 with the message and no payload. */
  function SuccessMessage(message: Option<string>): (r: ApiResponse)
    ensures r.code == HttpOk && r.message == message && r.data.None? && r.errors.None?
  {
    Success(HttpOk, message, None)
  }

  /** success(message, data): 200 with the message and the payload. */
  function SuccessData(message: Option<string>, data: Option<Payload>): (r: ApiResponse)
    ensures r.code == HttpOk && r.message == message && r.data == data && r.errors.None?
  {
    Success(HttpOk, message, data)
  }

  /** success(code, message) and success(status, message). */
  function SuccessCode(code: int, message: Option<string>): (r: ApiResponse)
    ensures r.code == code && r.message == message && r.data.None? && r.errors.None?
  {
    Success(code, message, None)
  }

  // ---------------------------------------------------------------- failure

  /** failure(code, message, errors) and failure(status, message, errors);
      every other failure factory fills in some of these. */
  function Failure(code: int, message: Option<string>, errors: Option<map<string, string>>): (r: ApiResponse)
    ensures r.code == code && r.message == message && r.errors == errors
    ensures r.data.None?
    ensures "data" !in JsonMembers(r)
  {
    ApiResponse(code, message, None, errors)
  }

  /** failure(message): 400 with the message and no details. */
  function FailureMessage(message: Option<string>): (r: ApiResponse)
    ensures r.code == HttpBadRequest && r.message == message && r.data.None? && r.errors.None?
  {
    Failure(HttpBadRequest, message, None)
  }

  /** failure(message, errors): 400 with the message and the details. */
  function FailureErrors(message: Option<string>, errors: Option<map<string, string>>): (r: ApiResponse)
    ensures r.code == HttpBadRequest && r.message == message && r.data.None? && r.errors == errors
  {
    Failure(HttpBadRequest, message, errors)
  }

  /** failure(code, message) and failure(status, message). */
  function FailureCode(code: int, message: Option<string>): (r: ApiResponse)
    ensures r.code == code && r.message == message && r.data.None? && r.errors.None?
  {
    Failure(code, message, None)
  }

  /** invalidParams(errors): 400, the fixed message and the field errors. */
  function InvalidParams(errors: Option<map<string, string>>): (r: ApiResponse)
    ensures r.code == HttpBadRequest && r.message == Some(InvalidParamsMessage)
    ensures r.data.None? && r.errors == errors
  {
    Failure(HttpBadRequest, Some(InvalidParamsMessage), errors)
  }

  /** invalidParams(): the same without details. */
  function InvalidParamsEmpty(): (r: ApiResponse)
    ensures r == InvalidParams(None)
    ensures JsonMembers(r) == ["code", "message"]
  {
    InvalidParams(None)
  }

  // ---------------------------------------------------------------- properties

  /** A success envelope and a failure envelope coincide exactly when neither
      carries a payload or details and code and message agree: the envelope
      itself does not record which kind it is. */
  lemma SuccessFailureOverlap(c1: int, m1: Option<string>, d: Option<Payload>,
                                 c2: int, m2: Option<string>, e: Option<map<string, string>>)
    ensures Success(c1, m1, d) == Failure(c2, m2, e) <==> d.None? && e.None? && c1 == c2 && m1 == m2
  {
  }

  /** Hence success(400, m) and failure(m) are the same envelope. */
  lemma SuccessWithBadRequestIsFailure(message: Option<string>)
    ensures SuccessCode(HttpBadRequest, message) == FailureMessage(message)
  {
  }

  /** Field errors always survive into the JSON object of invalidParams(errors)
      when given, and its payload never appears. */
  lemma InvalidParamsJson(errors: map<string, string>)
    ensures JsonMembers(InvalidParams(Some(errors))) == ["code", "message", "errors"]
  {
  }
}
