/**
 * The error class every handler throws, its defaults and the object its
 * toJSON returns; and what a handler can throw besides it.
 */
module ApiErrors {
  import opened Outcomes
  import opened Js

  const DefaultStatusCode := 500
  const DefaultMessage := "Something went wrong"

  /** An ApiError instance: the four arguments once defaulted, plus the fixed fields. */
  datatype ApiError = ApiError(statusCode: int, message: string, errors: seq<JsValue>, success: bool, data: JsValue)

  /**
   * `new ApiError(statusCode, message, errors)`: an argument left undefined
   * (None) takes its default. The stack argument is not modelled.
   */
  function NewApiError(statusCode: Option<int>, message: Option<string>, errors: Option<seq<JsValue>>): (e: ApiError)
    ensures !e.success && e.data == Null
    ensures statusCode.Some? ==> e.statusCode == statusCode.value
    ensures message.Some? ==> e.message == message.value
    ensures errors.Some? ==> e.errors == errors.value
  {
    ApiError(
      match statusCode case Some(c) => c case None => DefaultStatusCode,
      match message case Some(m) => m case None => DefaultMessage,
      match errors case Some(l) => l case None => [],
      false,
      Null)
  }

  /** `new ApiError(code, message)`, the form every handler uses. */
  function Err(code: int, message: string): ApiError
  {
    NewApiError(Some(code), Some(message), None)
  }

  /** With no arguments the error is a 500 "Something went wrong" with no details. */
  lemma Defaults()
    ensures NewApiError(None, None, None) == ApiError(500, "Something went wrong", [], false, Null)
  {
  }

  /** What toJSON returns; `errors: None` is the property left undefined (absent once serialised). */
  datatype ErrorJson = ErrorJson(success: bool, statusCode: int, message: string, errors: Option<seq<JsValue>>, data: JsValue)

  /** ApiError.prototype.toJSON. */
  function ToJson(e: ApiError): (j: ErrorJson)
    ensures j.success == e.success && j.data == e.data
    ensures j.statusCode == e.statusCode && j.message == e.message
    ensures j.errors.None? <==> |e.errors| == 0
    ensures j.errors.Some? ==> j.errors.value == e.errors
  {
    ErrorJson(e.success, e.statusCode, e.message, if |e.errors| > 0 then Some(e.errors) else None, e.data)
  }

  /** Reads an error back from its JSON form; an absent errors list is the empty one. */
  function FromJson(j: ErrorJson): ApiError
  {
    ApiError(j.statusCode, j.message, match j.errors case Some(l) => l case None => [], j.success, j.data)
  }

  /** toJSON loses nothing: dropping an empty list is undone by reading it back as empty. */
  lemma ToJsonRoundTrip(e: ApiError)
    ensures FromJson(ToJson(e)) == e
  {
  }

  /** Every error a constructor builds serialises as a failure with null data. */
  lemma ConstructedJsonIsFailure(statusCode: Option<int>, message: Option<string>, errors: Option<seq<JsValue>>)
    ensures var j := ToJson(NewApiError(statusCode, message, errors)); !j.success && j.data == Null
  {
  }

  /**
   * What a handler throws: an ApiError, or an exception raised by the runtime
   * or a library (a TypeError, a Mongoose CastError or ValidationError, a
   * duplicate-key error, a remote-host failure), named by its class.
   */
  datatype Thrown = Api(error: ApiError) | Runtime(name: string, message: string)

  /** `error.statusCode || 500`. */
  function StatusOr500(t: Thrown): int
  {
    match t
    case Api(e) => if e.statusCode != 0 then e.statusCode else 500
    case Runtime(_, _) => 500
  }

  function MessageOf(t: Thrown): string
  {
    match t
    case Api(e) => e.message
    case Runtime(_, m) => m
  }

  /** The TypeError raised by reading a property of undefined. */
  function ReadOfUndefined(property: string): Thrown
  {
    Runtime("TypeError", "Cannot read properties of undefined (reading '" + property + "')")
  }

  /** The CastError Mongoose raises when a lookup by `_id` gets a value that is not an ObjectId. */
  function CastError(value: string, model: string): Thrown
  {
    Runtime("CastError", "Cast to ObjectId failed for value \"" + value + "\" (type string) at path \"_id\" for model \"" + model + "\"")
  }
}
