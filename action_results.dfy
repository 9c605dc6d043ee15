/**
 * The MVC action results the result extensions and the two result filters
 * produce, and the result extensions themselves: a success maps its status
 * code to an action result, a failure to a JSON error payload; plus that
 * file's own category-based status table, which differs from the table of
 * the problem-details conversion.
 */
module ActionResults {
  import opened Wrappers
  import opened Results
  import opened ProblemDetailsMapping

  /** The payload of a failure: the status code and description, the messages, the errors and a trace id. */
  datatype ApiErrorResponse = ApiErrorResponse(
    statusCode: int,
    statusDescription: string,
    messages: seq<string>,
    errors: seq<ErrorInfo>,
    traceId: string)

  /** The value an object result carries. */
  datatype ObjectValue =
    | NullValue
    | PayloadValue(payload: Payload)
    | ApiError(response: ApiErrorResponse)
    | Problem(problem: ProblemDetails)
    | ResultValue(result: ResultView)
    | CompletedTask(taskResult: ObjectValue)
    | OtherValue(id: nat)

  /** An MVC action result; `statusCode` is the nullable `StatusCode` of an object result. */
  datatype ActionResult =
    | OkResult
    | OkObjectResult(okValue: ObjectValue, okStatusCode: int)
    | StatusCodeResult(statusCode: int)
    | AcceptedResult(acceptedLocation: Option<string>, acceptedValue: ObjectValue)
    | CreatedResult(createdLocation: string, createdValue: ObjectValue)
    | NoContentResult
    | ObjectResult(value: ObjectValue, objectStatusCode: Option<int>, contentTypes: seq<string>)
    | UnprocessableEntityObjectResult(rejected: ObjectValue)
    | OtherActionResult(id: nat)

  /**
   * The value of an object result, as a `Result is ObjectResult` test sees it:
   * `ObjectResult` itself and its subclasses `OkObjectResult`, `CreatedResult`,
   * `AcceptedResult` and `UnprocessableEntityObjectResult` carry one; the
   * status-code results and any other action result do not.
   */
  function ObjectValueOf(a: ActionResult): (v: Option<ObjectValue>)
    ensures v.None? <==> a.OkResult? || a.StatusCodeResult? || a.NoContentResult? || a.OtherActionResult?
  {
    match a
    case ObjectResult(value, _, _) => Some(value)
    case OkObjectResult(value, _) => Some(value)
    case CreatedResult(_, value) => Some(value)
    case AcceptedResult(_, value) => Some(value)
    case UnprocessableEntityObjectResult(value) => Some(value)
    case _ => None
  }

  /**
   * The result-executing context a result filter receives: the result to
   * execute, the response content type, the request, and the results the rest
   * of the pipeline has executed so far.
   */
  class ResultExecutingContext {
    var result: ActionResult
    var responseContentType: Option<string>
    var executed: seq<ActionResult>
    const httpContext: HttpContext

    constructor (result: ActionResult, httpContext: HttpContext)
      ensures this.result == result && this.responseContentType.None? && this.httpContext == httpContext
      ensures this.executed == []
    {
      this.result := result;
      this.responseContentType := None;
      this.executed := [];
      this.httpContext := httpContext;
    }

    /** The `next` delegate: the rest of the pipeline executes the current result. */
    method Next()
      modifies this
      ensures executed == old(executed) + [result]
      ensures result == old(result) && responseContentType == old(responseContentType)
    {
      executed := executed + [result];
    }
  }

  /** The JSON media type. */
  const ApplicationJson := "application/json"

  /** A generic result's value as an object: null when absent. */
  function ValueObject(value: Option<Payload>): (v: ObjectValue)
    ensures value.None? <==> v == NullValue
    ensures value.Some? ==> v == PayloadValue(value.value)
  {
    match value
    case None => NullValue
    case Some(p) => PayloadValue(p)
  }

  /** The `ApiErrorResponse` constructor: the status code and description, the lists as given, the ambient trace id or empty. */
  function NewApiErrorResponse(errors: seq<ErrorInfo>, messages: seq<string>, status: ResultStatus, activityId: Option<string>): (r: ApiErrorResponse)
    ensures r.statusCode == status.code && r.statusDescription == status.description
    ensures r.messages == messages && r.errors == errors
    ensures activityId.Some? ==> r.traceId == activityId.value
    ensures activityId.None? ==> r.traceId == ""
  {
    ApiErrorResponse(status.code, status.description, messages, errors, activityId.GetOr(""))
  }

  /** The failure branch shared by both overloads. */
  function FailureResult(result: ResultView, activityId: Option<string>): (a: ActionResult)
    ensures a.ObjectResult? && a.objectStatusCode == Some(result.status.code) && a.contentTypes == [ApplicationJson]
    ensures a.value == ApiError(NewApiErrorResponse(result.errors, result.messages, result.status, activityId))
  {
    ObjectResult(ApiError(NewApiErrorResponse(result.errors, result.messages, result.status, activityId)),
                 Some(result.status.code), [ApplicationJson])
  }

  /** `ToActionResult(IResult)`. */
  function ToActionResult(result: ResultView, activityId: Option<string>): (a: ActionResult)
    ensures !result.isSuccess ==> a == FailureResult(result, activityId)
  {
    if result.isSuccess then
      match result.status.code
      case 200 => OkResult
      case 201 => StatusCodeResult(201)
      case 202 => AcceptedResult(None, NullValue)
      case 204 => NoContentResult
      case _ => OkResult
    else FailureResult(result, activityId)
  }

  /** `ToActionResult<T>(IResult<T>)`. */
  function ToActionResultOf(result: ResultView, activityId: Option<string>): (a: ActionResult)
    ensures !result.isSuccess ==> a == FailureResult(result, activityId)
  {
    if result.isSuccess then
      match result.status.code
      case 200 => OkObjectResult(ValueObject(result.value), 200)
      case 201 => CreatedResult("", ValueObject(result.value))
      case 202 => AcceptedResult(Some(""), ValueObject(result.value))
      case 204 => NoContentResult
      case _ => OkObjectResult(ValueObject(result.value), 200)
    else FailureResult(result, activityId)
  }

  /** The non-generic success table: 200 and unknown codes give Ok, 201 a bare 201, 202 Accepted, 204 No Content. */
  lemma SuccessTable(result: ResultView, activityId: Option<string>)
    requires result.isSuccess
    ensures ToActionResult(result, activityId) ==
      if result.status.code == 201 then StatusCodeResult(201)
      else if result.status.code == 202 then AcceptedResult(None, NullValue)
      else if result.status.code == 204 then NoContentResult
      else OkResult
    ensures ToActionResult(result, activityId).OkResult? <==> result.status.code !in {201, 202, 204}
  {
  }

  /**
   * The generic success table carries the value in every branch but 204;
   * apart from the value it agrees with the non-generic table on 204, and it
   * answers 200 with Ok (with the value) for every code but 201, 202 and 204.
   */
  lemma GenericSuccessTable(result: ResultView, activityId: Option<string>)
    requires result.isSuccess
    ensures var a := ToActionResultOf(result, activityId);
      (result.status.code == 204 <==> a.NoContentResult?) &&
      (result.status.code == 201 ==> a == CreatedResult("", ValueObject(result.value))) &&
      (result.status.code == 202 ==> a == AcceptedResult(Some(""), ValueObject(result.value))) &&
      (result.status.code !in {201, 202, 204} ==> a == OkObjectResult(ValueObject(result.value), 200))
    ensures result.status.code == 204 <==> ToActionResult(result, activityId) == ToActionResultOf(result, activityId)
  {
  }

  /** A failure's payload copies the status and both lists unchanged, whichever overload is used. */
  lemma FailurePayloadCopiesResult(result: ResultView, activityId: Option<string>)
    requires !result.isSuccess
    ensures ToActionResult(result, activityId) == ToActionResultOf(result, activityId)
    ensures var a := ToActionResult(result, activityId);
      a.ObjectResult? && a.value.ApiError? &&
      a.value.response.statusCode == result.status.code && a.value.response.statusDescription == result.status.description &&
      a.value.response.messages == result.messages && a.value.response.errors == result.errors &&
      a.objectStatusCode == Some(a.value.response.statusCode)
  {
  }

  // ---------------------------------------------------------------- status table

  /** This file's `ToHttpStatusCode(IResult)`: 200 on success, otherwise by the first error's category. */
  function StatusCodeFor(result: ResultView): (code: int)
    ensures result.isSuccess ==> code == 200
    ensures !result.isSuccess && |result.errors| > 0 ==> code == CategoryStatusCode(result.errors[0].category)
    ensures !result.isSuccess && |result.errors| == 0 ==> code == 500
    ensures code in {200, 400, 401, 403, 404, 409, 429, 500, 503}
  {
    if result.isSuccess then 200 else CategoryStatusCode(FirstCategory(result.errors))
  }

  /** The category table of this file. */
  function CategoryStatusCode(c: ErrorCategory): int {
    match c
    case NotFound => 404
    case Validation => 400
    case Conflict => 409
    case Unauthorized => 401
    case Forbidden => 403
    case Authentication => 401
    case Concurrency => 409
    case TooManyRequests => 429
    case ExternalService => 503
    case _ => 500
  }

  /** The table: nine categories map to specific codes; every other category, and a failure without errors, gives 500. */
  lemma CategoryStatusCodes(c: ErrorCategory, result: ResultView)
    ensures CategoryStatusCode(c) != 500 <==>
      c in {NotFound, Validation, Conflict, Unauthorized, Forbidden, Authentication, Concurrency, TooManyRequests, ExternalService}
    ensures CategoryStatusCode(c) in {400, 401, 403, 404, 409, 429, 500, 503}
    ensures !result.isSuccess && |result.errors| == 0 ==> StatusCodeFor(result) == 500
    ensures result.isSuccess ==> StatusCodeFor(result) == 200
  {
  }

  /**
   * The two category tables agree exactly outside nine categories: the
   * problem-details table knows Network, Timeout, Security and Request, this
   * one Unauthorized, Forbidden, Concurrency, TooManyRequests and ExternalService.
   */
  lemma StatusTablesDiffer(c: ErrorCategory)
    ensures CategoryStatusCode(c) != ProblemDetailsMapping.CategoryStatusCode(c) <==>
      c in {Network, Timeout, Security, Request, Unauthorized, Forbidden, Concurrency, TooManyRequests, ExternalService}
    ensures c in {Network, Timeout, Security, Request} ==> CategoryStatusCode(c) == 500
    ensures c in {Unauthorized, Forbidden, Concurrency, TooManyRequests, ExternalService} ==>
      ProblemDetailsMapping.CategoryStatusCode(c) == 500
  {
  }
}
