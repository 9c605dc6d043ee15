/**
 * The result types the HTTP mapping and the JSON converter work on: error
 * categories, error records, result statuses and the view of a result that
 * those consumers read through its interface.
 */
module Results {
  import opened Wrappers

  /** The error categories, in declaration order. */
  datatype ErrorCategory =
    | General | Validation | Authentication | Authorization | NotFound | Conflict
    | Exception | Network | Database | Timeout | Security | Request | Unauthorized
    | Forbidden | Concurrency | TooManyRequests | ExternalService

  /** The category's enum member name, as `ToString()` renders it. */
  function CategoryName(c: ErrorCategory): string {
    match c
    case General => "General"
    case Validation => "Validation"
    case Authentication => "Authentication"
    case Authorization => "Authorization"
    case NotFound => "NotFound"
    case Conflict => "Conflict"
    case Exception => "Exception"
    case Network => "Network"
    case Database => "Database"
    case Timeout => "Timeout"
    case Security => "Security"
    case Request => "Request"
    case Unauthorized => "Unauthorized"
    case Forbidden => "Forbidden"
    case Concurrency => "Concurrency"
    case TooManyRequests => "TooManyRequests"
    case ExternalService => "ExternalService"
  }

  /** Parsing a member name back into its category. */
  function ParseCategory(s: string): (r: Option<ErrorCategory>)
    ensures r.Some? ==> CategoryName(r.value) == s
  {
    if s == "General" then Some(General)
    else if s == "Validation" then Some(Validation)
    else if s == "Authentication" then Some(Authentication)
    else if s == "Authorization" then Some(Authorization)
    else if s == "NotFound" then Some(NotFound)
    else if s == "Conflict" then Some(Conflict)
    else if s == "Exception" then Some(Exception)
    else if s == "Network" then Some(Network)
    else if s == "Database" then Some(Database)
    else if s == "Timeout" then Some(Timeout)
    else if s == "Security" then Some(Security)
    else if s == "Request" then Some(Request)
    else if s == "Unauthorized" then Some(Unauthorized)
    else if s == "Forbidden" then Some(Forbidden)
    else if s == "Concurrency" then Some(Concurrency)
    else if s == "TooManyRequests" then Some(TooManyRequests)
    else if s == "ExternalService" then Some(ExternalService)
    else None
  }

  /** Every category's name parses back to it, so the names are pairwise distinct. */
  lemma CategoryNameRoundTrip(c: ErrorCategory)
    ensures ParseCategory(CategoryName(c)) == Some(c)
  {
    match c
    case General =>
    case Validation =>
    case Authentication =>
    case Authorization =>
    case NotFound =>
    case Conflict =>
    case Exception =>
    case Network =>
    case Database =>
    case Timeout =>
    case Security =>
    case Request =>
    case Unauthorized =>
    case Forbidden =>
    case Concurrency =>
    case TooManyRequests =>
    case ExternalService =>
  }

  /** The payload of an error's `Data`: a string, or any other object known by identity. */
  datatype DataValue = DataString(s: string) | DataObject(id: nat)

  /**
   * An error record. `code` is nullable; a default (all-null) record is only
   * ever observed through `FirstOrDefault` on an empty list, see `FirstCode`
   * and `FirstCategory`.
   */
  datatype ErrorInfo = ErrorInfo(
    category: ErrorCategory,
    code: Option<string>,
    message: string,
    data: Option<DataValue>,
    innerErrors: InnerErrors)

  /** An error's nullable list of inner errors. */
  datatype InnerErrors = NullInnerErrors | InnerErrorList(items: seq<ErrorInfo>)

  /** `new ErrorInfo(category, code, message)`. */
  function NewErrorInfo(category: ErrorCategory, code: string, message: string): (e: ErrorInfo)
    ensures e.category == category && e.code == Some(code) && e.message == message
    ensures e.data.None? && e.innerErrors.NullInnerErrors?
  {
    ErrorInfo(category, Some(code), message, None, NullInnerErrors)
  }

  /** `Errors.FirstOrDefault().Code`: the first error's code, or null for no errors. */
  function FirstCode(errors: seq<ErrorInfo>): (r: Option<string>)
    ensures |errors| == 0 ==> r.None?
    ensures |errors| > 0 ==> r == errors[0].code
  {
    if |errors| == 0 then None else errors[0].code
  }

  /** `Errors.FirstOrDefault().Category`: the first error's category, or `General` (the enum's zero) for no errors. */
  function FirstCategory(errors: seq<ErrorInfo>): (r: ErrorCategory)
    ensures |errors| == 0 ==> r == General
    ensures |errors| > 0 ==> r == errors[0].category
  {
    if |errors| == 0 then General else errors[0].category
  }

  /** A result status: a numeric code and a description. */
  datatype ResultStatus = ResultStatus(code: int, description: string)

  /** The predefined statuses. */
  const SuccessStatus := ResultStatus(200, "Success")
  const CreatedStatus := ResultStatus(201, "Created")
  const AcceptedStatus := ResultStatus(202, "Accepted")
  const NoContentStatus := ResultStatus(204, "No Content")
  const BadRequestStatus := ResultStatus(400, "Bad Request")
  const UnauthorizedStatus := ResultStatus(401, "Unauthorized")
  const PaymentRequiredStatus := ResultStatus(402, "Payment Required")
  const ForbiddenStatus := ResultStatus(403, "Forbidden")
  const NotFoundStatus := ResultStatus(404, "Not Found")
  const MethodNotAllowedStatus := ResultStatus(405, "Method Not Allowed")
  const ConflictStatus := ResultStatus(409, "Conflict")
  const GoneStatus := ResultStatus(410, "Gone")
  const PreconditionFailedStatus := ResultStatus(412, "Precondition Failed")
  const UnprocessableEntityStatus := ResultStatus(422, "Unprocessable Entity")
  const TooManyRequestsStatus := ResultStatus(429, "Too Many Requests")
  const ErrorStatus := ResultStatus(500, "Internal Server Error")
  const NotImplementedStatus := ResultStatus(501, "Not Implemented")
  const ServiceUnavailableStatus := ResultStatus(503, "Service Unavailable")

  /** A value carried by a generic result, known by identity. */
  datatype Payload = Payload(id: nat)

  /**
   * How a result is typed: a non-generic `IResult`, an `IResult<object>`, or an
   * `IResult<T>` for some other `T` (the interface is invariant in `T`).
   */
  datatype ResultKind = NonGeneric | GenericObject | GenericOther

  /**
   * A result as its consumers see it through the interface: the properties
   * they read. `value` is the generic `Value` (null as `None`).
   */
  datatype ResultView = ResultView(
    isSuccess: bool,
    isFailure: bool,
    status: ResultStatus,
    messages: seq<string>,
    errors: seq<ErrorInfo>,
    error: Option<string>,
    kind: ResultKind,
    value: Option<Payload>)
}
