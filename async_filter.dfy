/**
 * The asynchronous MVC result filter: an object result holding a result (or a
 * completed task yielding one) is converted to an action result before the
 * rest of the pipeline runs; a success becomes an Ok-with-value or a bare
 * status code, a failure its problem details.
 */
module AsyncResultFilter {
  import opened Wrappers
  import opened Results
  import opened ProblemDetailsMapping
  import opened ActionResults

  /** A constructed filter with its problem-details factory. */
  datatype Filter = Filter(factory: ProblemDetailsFactory)

  /** The constructor: a null factory throws. */
  function NewFilter(factory: Option<ProblemDetailsFactory>): (r: Result<Filter, ProblemError>)
    ensures r.Failure? <==> factory.None?
    ensures r.Failure? ==> r.error == ArgumentNull("problemDetailsFactory")
    ensures r.Success? ==> r.value.factory == factory.value
  {
    match factory
    case None => Failure(ArgumentNull("problemDetailsFactory"))
    case Some(f) => Success(Filter(f))
  }

  /**
   * The result the filter converts: held by an object result (of any of the
   * object-result types) directly, or by a completed task it holds.
   */
  function HeldResult(a: ActionResult): (r: Option<ResultView>)
    ensures r.Some? ==> ObjectValueOf(a).Some?
    ensures ObjectValueOf(a).Some? && ObjectValueOf(a).value.ResultValue? ==> r == Some(ObjectValueOf(a).value.result)
    ensures ObjectValueOf(a).Some? && ObjectValueOf(a).value.CompletedTask? && ObjectValueOf(a).value.taskResult.ResultValue? ==>
      r == Some(ObjectValueOf(a).value.taskResult.result)
    ensures r.None? <==>
      match ObjectValueOf(a)
      case None => true
      case Some(v) => !v.ResultValue? && !(v.CompletedTask? && v.taskResult.ResultValue?)
  {
    match ObjectValueOf(a)
    case Some(ResultValue(result)) => Some(result)
    case Some(CompletedTask(ResultValue(result))) => Some(result)
    case _ => None
  }

  /**
   * Every object-result type is looked into: an Ok, Created, Accepted or
   * UnprocessableEntity result holding a result is converted just as an
   * `ObjectResult` holding it is; status-code results never are.
   */
  lemma ObjectResultSubclassesAreLookedInto(r: ResultView, code: int, location: Option<string>)
    ensures HeldResult(OkObjectResult(ResultValue(r), code)) == Some(r)
    ensures HeldResult(CreatedResult(location.GetOr(""), ResultValue(r))) == Some(r)
    ensures HeldResult(AcceptedResult(location, CompletedTask(ResultValue(r)))) == Some(r)
    ensures HeldResult(UnprocessableEntityObjectResult(ResultValue(r))) == Some(r)
    ensures HeldResult(StatusCodeResult(code)).None? && HeldResult(OkResult).None? && HeldResult(NoContentResult).None?
  {
  }

  /** The problem of a failed result; the conversion's argument checks cannot fail here. */
  function FailureProblem(filter: Filter, result: ResultView, ctx: HttpContext): (pd: ProblemDetails)
    requires !result.isSuccess
    ensures Success(pd) == ProblemDetailsFor(result, Some(filter.factory), Some(ctx))
  {
    ProblemDetailsFor(result, Some(filter.factory), Some(ctx)).value
  }

  /**
   * `ConvertZentientResultToActionResult`: a success keeps its status code and
   * carries no problem; a failure becomes an object result carrying its problem.
   */
  function Convert(filter: Filter, result: ResultView, ctx: HttpContext): (a: ActionResult)
    ensures result.isSuccess ==>
      (a.OkObjectResult? && a.okStatusCode == result.status.code) || a == StatusCodeResult(result.status.code)
    ensures !result.isSuccess ==> ObjectValueOf(a) == Some(Problem(FailureProblem(filter, result, ctx)))
  {
    if result.isSuccess then
      if result.kind == GenericObject then OkObjectResult(ValueObject(result.value), result.status.code)
      else StatusCodeResult(result.status.code)
    else
      var pd := FailureProblem(filter, result, ctx);
      if pd.validationErrors.Some? then UnprocessableEntityObjectResult(Problem(pd))
      else ObjectResult(Problem(pd), Some(pd.status.GetOr(500)), [])
  }

  /** `OnResultExecutionAsync`: replace a held result by its conversion, then run the rest of the pipeline once. */
  method OnResultExecutionAsync(filter: Filter, context: ResultExecutingContext)
    modifies context
    ensures HeldResult(old(context.result)).None? ==> context.result == old(context.result)
    ensures HeldResult(old(context.result)).Some? ==>
      context.result == Convert(filter, HeldResult(old(context.result)).value, context.httpContext)
    ensures context.executed == old(context.executed) + [context.result]
    ensures context.responseContentType == old(context.responseContentType)
  {
    var held := ObjectValueOf(context.result);
    if held.Some? && held.value.ResultValue? {
      context.result := Convert(filter, held.value.result, context.httpContext);
    } else if held.Some? && held.value.CompletedTask? && held.value.taskResult.ResultValue? {
      context.result := Convert(filter, held.value.taskResult.result, context.httpContext);
    }
    context.Next();
  }

  // ---------------------------------------------------------------- properties

  /**
   * A success becomes an Ok carrying the value with the status code when the
   * result is an `IResult<object>`, and a bare status code otherwise, whatever
   * that code is: 204 does not become No Content.
   */
  lemma SuccessConversion(filter: Filter, result: ResultView, ctx: HttpContext)
    requires result.isSuccess
    ensures result.kind == GenericObject ==>
      Convert(filter, result, ctx) == OkObjectResult(ValueObject(result.value), result.status.code)
    ensures result.kind != GenericObject ==> Convert(filter, result, ctx) == StatusCodeResult(result.status.code)
    ensures !Convert(filter, result, ctx).NoContentResult?
  {
  }

  /**
   * A failure becomes an unprocessable-entity result exactly when its problem
   * is a validation problem, and otherwise an object result with the
   * problem's status; that status is never the 500 fallback's doing, as the
   * conversion always sets it.
   */
  lemma FailureConversion(filter: Filter, result: ResultView, ctx: HttpContext)
    requires !result.isSuccess
    ensures var pd := FailureProblem(filter, result, ctx);
      var a := Convert(filter, result, ctx);
      (a.UnprocessableEntityObjectResult? <==> pd.validationErrors.Some?) &&
      (pd.validationErrors.None? ==> a == ObjectResult(Problem(pd), pd.status, [])) &&
      pd.status.Some?
    ensures var created := filter.factory.create(ctx, FactoryCallFor(result));
      var a := Convert(filter, result, ctx);
      created.validationErrors.None? && created.status.None? ==> a.objectStatusCode == Some(result.status.code)
  {
  }

  /** A validation failure (status 422 or a `Validation` error) is unprocessable when the factory answers the validation call with a validation problem. */
  lemma ValidationFailureIsUnprocessable(filter: Filter, result: ResultView, ctx: HttpContext)
    requires !result.isSuccess && IsValidationProblem(result)
    requires filter.factory.create(ctx, FactoryCallFor(result)).validationErrors.Some?
    ensures Convert(filter, result, ctx).UnprocessableEntityObjectResult?
    ensures Convert(filter, result, ctx).rejected.problem.validationErrors.Some?
  {
  }
}
