/**
 * The minimal-API endpoint filter: the value the endpoint returns is passed on
 * unchanged unless it is a result; a success maps its status code to an HTTP
 * result, a failure becomes a problem response built from its problem details.
 * The problem-details factory is looked up among the request's services
 * before the result is inspected, so a missing factory fails every result.
 */
module EndpointFilter {
  import opened Wrappers
  import opened Results
  import opened ProblemDetailsMapping
  import opened ActionResults

  /** What the endpoint returned. */
  datatype EndpointValue = ZentientResult(result: ResultView) | OtherObject(id: nat)

  /** The minimal-API results the filter builds. */
  datatype HttpResult = Ok(value: ObjectValue) | NoContent | StatusCode(code: int) | ProblemResult(problem: ProblemDetails)

  /** The filter's answer: the endpoint's own value, or a converted HTTP result. */
  datatype Outcome = PassedThrough(value: EndpointValue) | Converted(result: HttpResult)

  /** The success table of an `IResult<object>`. */
  function GenericSuccess(result: ResultView): HttpResult {
    match result.status.code
    case 200 => Ok(ValueObject(result.value))
    case 201 => StatusCode(201)
    case 204 => NoContent
    case _ => StatusCode(result.status.code)
  }

  /** The success table of any other result. */
  function NonGenericSuccess(result: ResultView): HttpResult {
    match result.status.code
    case 200 => NoContent
    case 201 => StatusCode(201)
    case 204 => NoContent
    case _ => StatusCode(result.status.code)
  }

  /** `InvokeAsync`, given what `next` returned and the registered factory (if any). */
  function InvokeAsync(returned: EndpointValue, factory: Option<ProblemDetailsFactory>, ctx: HttpContext): (r: Result<Outcome, ProblemError>)
    ensures returned.OtherObject? ==> r == Success(PassedThrough(returned))
    ensures returned.ZentientResult? && factory.None? ==> r == Failure(InvalidOperation)
  {
    match returned
    case OtherObject(_) => Success(PassedThrough(returned))
    case ZentientResult(result) =>
      if factory.None? then Failure(InvalidOperation)
      else if result.isSuccess then
        if result.kind == GenericObject then Success(Converted(GenericSuccess(result)))
        else Success(Converted(NonGenericSuccess(result)))
      else Success(Converted(ProblemResult(ProblemDetailsFor(result, factory, Some(ctx)).value)))
  }

  /**
   * With a factory registered, a result is always converted: a failure to the
   * problem `ToProblemDetails` builds, a success to a value-free result except
   * a 200 from an `IResult<object>`, which carries the value.
   */
  lemma ResultsAreConverted(result: ResultView, factory: ProblemDetailsFactory, ctx: HttpContext)
    ensures InvokeAsync(ZentientResult(result), Some(factory), ctx).Success?
    ensures InvokeAsync(ZentientResult(result), Some(factory), ctx).value.Converted?
    ensures !result.isSuccess ==>
      Success(InvokeAsync(ZentientResult(result), Some(factory), ctx).value.result.problem) ==
      ProblemDetailsFor(result, Some(factory), Some(ctx))
    ensures var h := InvokeAsync(ZentientResult(result), Some(factory), ctx).value.result;
      result.isSuccess ==> (h.Ok? <==> result.kind == GenericObject && result.status.code == 200)
  {
  }

  /**
   * The two success tables agree on every code but 200, where a non-generic
   * result gets No Content rather than Ok; both pass codes other than 200,
   * 201 and 204 through as a bare status code.
   */
  lemma SuccessTables(result: ResultView)
    ensures result.status.code != 200 ==> GenericSuccess(result) == NonGenericSuccess(result)
    ensures result.status.code == 200 ==> GenericSuccess(result) == Ok(ValueObject(result.value)) && NonGenericSuccess(result) == NoContent
    ensures result.status.code !in {200, 201, 204} ==> NonGenericSuccess(result) == StatusCode(result.status.code)
    ensures NonGenericSuccess(result).NoContent? <==> result.status.code in {200, 204}
  {
  }
}
