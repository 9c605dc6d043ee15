/**
 * The options-driven MVC result filter: before a result executes, an object
 * result holding a failed result is replaced by a problem, built by the
 * custom factory when one is configured, else as a validation problem keyed
 * by error code when that mapping is switched on and there are errors, else
 * as a plain problem; the trace identifier is added on request.
 *
 * The filter passes a null extension dictionary to the factories and never
 * creates one, so it is not a parameter here and the extension-copy loops of
 * the two built-in branches never run.
 */
module MvcResultFilter {
  import opened Wrappers
  import opened Results
  import opened ModelErrors
  import opened ProblemDetailsMapping
  import opened ActionResults
  import PathString

  /** The arguments the custom problem factory receives. */
  datatype CustomCall = CustomCall(statusCode: int, title: string, detail: Option<string>, problemType: Option<string>)

  /** The arguments the custom validation factory receives. */
  datatype CustomValidationCall = CustomValidationCall(
    errors: map<string, seq<string>>, statusCode: int, title: string, detail: Option<string>, problemType: Option<string>)

  datatype CustomFactory = CustomFactory(create: (HttpContext, CustomCall) -> ProblemDetails)
  datatype CustomValidationFactory = CustomValidationFactory(create: (HttpContext, CustomValidationCall) -> ProblemDetails)

  /** The filter's options. */
  datatype ProblemDetailsOptions = ProblemDetailsOptions(
    defaultProblemType: Option<string>,
    includeTraceId: bool,
    mapValidationErrors: bool,
    validationProblemTitle: string,
    statusCodeTitleMap: map<int, string>,
    customProblemDetailsFactory: Option<CustomFactory>,
    customValidationProblemDetailsFactory: Option<CustomValidationFactory>)

  /** The options' defaults. */
  const DefaultOptions := ProblemDetailsOptions(None, false, false, "One or more validation errors occurred.", map[], None, None)

  /** The problem media type. */
  const ProblemJson := "application/problem+json"

  /** A constructed filter. */
  datatype Filter = Filter(options: ProblemDetailsOptions)

  /** The constructor: null options throw. */
  function NewFilter(options: Option<ProblemDetailsOptions>): (r: Result<Filter, ProblemError>)
    ensures r.Failure? <==> options.None?
    ensures r.Failure? ==> r.error == ArgumentNull("options")
    ensures r.Success? ==> r.value.options == options.value
  {
    match options
    case None => Failure(ArgumentNull("options"))
    case Some(o) => Success(Filter(o))
  }

  /** The filter acts on an object result (of any of the object-result types) holding a failed result, and on nothing else. */
  predicate HoldsFailedResult(a: ActionResult) {
    ObjectValueOf(a).Some? && ObjectValueOf(a).value.ResultValue? && ObjectValueOf(a).value.result.isFailure
  }

  /** The failed result an acting filter converts. */
  function FailedResultOf(a: ActionResult): ResultView
    requires HoldsFailedResult(a)
  {
    ObjectValueOf(a).value.result
  }

  /** The title: the mapped title for the status code, else the status description. */
  function Title(options: ProblemDetailsOptions, result: ResultView): (t: string)
    ensures result.status.code in options.statusCodeTitleMap ==> t == options.statusCodeTitleMap[result.status.code]
    ensures result.status.code !in options.statusCodeTitleMap ==> t == result.status.description
  {
    if result.status.code in options.statusCodeTitleMap then options.statusCodeTitleMap[result.status.code]
    else result.status.description
  }

  predicate AllCodesPresent(errors: seq<ErrorInfo>) {
    forall i :: 0 <= i < |errors| ==> errors[i].code.Some?
  }

  /** The `(code, message)` pair of every error, in order. */
  function CodePairs(errors: seq<ErrorInfo>): seq<(string, string)>
    requires AllCodesPresent(errors)
    decreases |errors|
  {
    if errors == [] then []
    else
      var last := errors[|errors| - 1];
      CodePairs(errors[..|errors| - 1]) + [(last.code.value, last.message)]
  }

  /** The errors dictionary: every error under its code; a null code makes the dictionary throw. */
  function ErrorsByCode(errors: seq<ErrorInfo>): Result<map<string, seq<string>>, ProblemError> {
    if AllCodesPresent(errors) then Success(WithModelErrors(map[], CodePairs(errors)))
    else Failure(ArgumentNull("key"))
  }

  /** The trace identifier, added when the options ask for it. */
  function WithTraceId(options: ProblemDetailsOptions, ctx: HttpContext, pd: ProblemDetails): (r: ProblemDetails)
    ensures options.includeTraceId ==> r == pd.(extensions := pd.extensions["traceId" := TraceId(ctx.traceIdentifier)])
    ensures !options.includeTraceId ==> r == pd
  {
    if options.includeTraceId then pd.(extensions := pd.extensions["traceId" := TraceId(ctx.traceIdentifier)]) else pd
  }

  /**
   * The problem the filter builds for a failed result, or the exception it
   * throws: it throws exactly when errors are mapped without a custom problem
   * factory and some error has no code.
   */
  function FilterProblem(options: ProblemDetailsOptions, result: ResultView, ctx: HttpContext): (r: Result<ProblemDetails, ProblemError>)
    ensures r.Failure? <==>
      options.customProblemDetailsFactory.None? && options.mapValidationErrors && |result.errors| > 0 && !AllCodesPresent(result.errors)
    ensures r.Failure? ==> r.error == ArgumentNull("key")
  {
    var statusCode := result.status.code;
    var title := Title(options, result);
    var instance := Some(PathString.ToUriComponent(ctx.requestPath));
    if options.customProblemDetailsFactory.Some? then
      Success(WithTraceId(options, ctx, options.customProblemDetailsFactory.value.create(
        ctx, CustomCall(statusCode, title, result.error, options.defaultProblemType))))
    else if options.mapValidationErrors && |result.errors| > 0 then
      match ErrorsByCode(result.errors)
      case Failure(e) => Failure(e)
      case Success(errors) =>
        if options.customValidationProblemDetailsFactory.Some? then
          Success(WithTraceId(options, ctx, options.customValidationProblemDetailsFactory.value.create(
            ctx, CustomValidationCall(errors, statusCode, title, result.error, options.defaultProblemType))))
        else
          Success(WithTraceId(options, ctx, ProblemDetails(
            Some(errors), Some(statusCode), Some(options.validationProblemTitle), result.error,
            options.defaultProblemType, instance, map[])))
    else
      Success(WithTraceId(options, ctx, ProblemDetails(
        None, Some(statusCode), Some(title), result.error, options.defaultProblemType, instance, map[])))
  }

  /** The errors-dictionary loop: every error is added under its code, in order, until a null code throws. */
  method BuildErrorsByCode(errors: seq<ErrorInfo>) returns (r: Result<map<string, seq<string>>, ProblemError>)
    ensures r == ErrorsByCode(errors)
  {
    var dictionary := new ErrorDictionary();
    var i := 0;
    while i < |errors|
      invariant 0 <= i <= |errors|
      invariant AllCodesPresent(errors[..i])
      invariant dictionary.entries == WithModelErrors(map[], CodePairs(errors[..i]))
    {
      var error := errors[i];
      if error.code.None? {
        assert !AllCodesPresent(errors);
        return Failure(ArgumentNull("key"));
      }
      CodePairsStep(errors, i);
      dictionary.AddModelError(error.code.value, error.message);
      i := i + 1;
    }
    assert errors[..i] == errors;
    return Success(dictionary.entries);
  }

  /** One more error with a code adds exactly its pair. */
  lemma CodePairsStep(errors: seq<ErrorInfo>, i: int)
    requires 0 <= i < |errors| && AllCodesPresent(errors[..i]) && errors[i].code.Some?
    ensures AllCodesPresent(errors[..i + 1])
    ensures WithModelErrors(map[], CodePairs(errors[..i + 1])) ==
      WithModelError(WithModelErrors(map[], CodePairs(errors[..i])), errors[i].code.value, errors[i].message)
  {
    var s := errors[..i + 1];
    assert s[..i] == errors[..i] && s[i] == errors[i];
    assert AllCodesPresent(s) by {
      forall j | 0 <= j < |s| ensures s[j].code.Some? {
        if j < i { assert s[j] == errors[..i][j]; }
      }
    }
    assert CodePairs(s) == CodePairs(errors[..i]) + [(errors[i].code.value, errors[i].message)];
    AddingOnePair(map[], CodePairs(errors[..i]), (errors[i].code.value, errors[i].message));
  }

  /** `OnResultExecuting`: the context is changed only for a failed result, and not when the filter throws. */
  method OnResultExecuting(filter: Filter, context: ResultExecutingContext) returns (thrown: Option<ProblemError>)
    modifies context
    ensures context.executed == old(context.executed)
    ensures !HoldsFailedResult(old(context.result)) ==>
      thrown.None? && context.result == old(context.result) && context.responseContentType == old(context.responseContentType)
    ensures HoldsFailedResult(old(context.result)) ==>
      var outcome := FilterProblem(filter.options, FailedResultOf(old(context.result)), context.httpContext);
      (outcome.Failure? ==>
         (thrown == Some(outcome.error) &&
          context.result == old(context.result) && context.responseContentType == old(context.responseContentType))) &&
      (outcome.Success? ==>
         (thrown.None? &&
          context.result == ObjectResult(Problem(outcome.value), Some(FailedResultOf(old(context.result)).status.code), [ProblemJson]) &&
          context.responseContentType == Some(ProblemJson)))
  {
    if !HoldsFailedResult(context.result) {
      return None;
    }
    var result := FailedResultOf(context.result);
    var options := filter.options;
    var statusCode := result.status.code;
    var title := Title(options, result);
    var instance := Some(PathString.ToUriComponent(context.httpContext.requestPath));
    var problemDetails: ProblemDetails;
    if options.customProblemDetailsFactory.Some? {
      problemDetails := options.customProblemDetailsFactory.value.create(
        context.httpContext, CustomCall(statusCode, title, result.error, options.defaultProblemType));
    } else if options.mapValidationErrors && |result.errors| > 0 {
      var errors := BuildErrorsByCode(result.errors);
      if errors.Failure? {
        return Some(errors.error);
      }
      if options.customValidationProblemDetailsFactory.Some? {
        problemDetails := options.customValidationProblemDetailsFactory.value.create(
          context.httpContext, CustomValidationCall(errors.value, statusCode, title, result.error, options.defaultProblemType));
      } else {
        problemDetails := ProblemDetails(Some(errors.value), Some(statusCode), Some(options.validationProblemTitle),
                                         result.error, options.defaultProblemType, instance, map[]);
      }
    } else {
      problemDetails := ProblemDetails(None, Some(statusCode), Some(title), result.error,
                                       options.defaultProblemType, instance, map[]);
    }
    if options.includeTraceId {
      problemDetails := problemDetails.(extensions := problemDetails.extensions["traceId" := TraceId(context.httpContext.traceIdentifier)]);
    }
    context.result := ObjectResult(Problem(problemDetails), Some(statusCode), [ProblemJson]);
    context.responseContentType := Some(ProblemJson);
    return None;
  }

  // ---------------------------------------------------------------- properties

  /**
   * Every object-result type is acted on: an Ok, Created, Accepted or
   * UnprocessableEntity result holding a failed result is converted just as
   * an `ObjectResult` holding it is; status-code results never are.
   */
  lemma ObjectResultSubclassesAreConverted(r: ResultView, code: int, location: Option<string>, contentTypes: seq<string>)
    requires r.isFailure
    ensures HoldsFailedResult(ObjectResult(ResultValue(r), Some(code), contentTypes))
    ensures HoldsFailedResult(OkObjectResult(ResultValue(r), code)) && FailedResultOf(OkObjectResult(ResultValue(r), code)) == r
    ensures HoldsFailedResult(CreatedResult(location.GetOr(""), ResultValue(r)))
    ensures HoldsFailedResult(AcceptedResult(location, ResultValue(r)))
    ensures HoldsFailedResult(UnprocessableEntityObjectResult(ResultValue(r)))
    ensures !HoldsFailedResult(StatusCodeResult(code)) && !HoldsFailedResult(OkResult) && !HoldsFailedResult(NoContentResult)
  {
  }

  /** A configured custom factory wins over validation mapping, whatever the errors. */
  lemma CustomFactoryWins(options: ProblemDetailsOptions, result: ResultView, ctx: HttpContext)
    requires options.customProblemDetailsFactory.Some?
    ensures FilterProblem(options, result, ctx) == FilterProblem(options.(mapValidationErrors := false), result, ctx)
    ensures FilterProblem(options, result, ctx) ==
      Success(WithTraceId(options, ctx, options.customProblemDetailsFactory.value.create(
        ctx, CustomCall(result.status.code, Title(options, result), result.error, options.defaultProblemType))))
  {
  }

  /** The errors dictionary has a key for every error's code, of any category, and no other. */
  lemma {:induction false} ErrorsByCodeKeys(errors: seq<ErrorInfo>, key: string)
    requires AllCodesPresent(errors)
    ensures key in ErrorsByCode(errors).value <==> exists i :: 0 <= i < |errors| && errors[i].code == Some(key)
  {
    var pairs := CodePairs(errors);
    ModelErrorsInOrder(map[], pairs, key);
    MessagesForNonEmpty(pairs, key);
    CodePairsAt(errors);
    if key in ErrorsByCode(errors).value {
      var j :| 0 <= j < |pairs| && pairs[j].0 == key;
      assert errors[j].code == Some(key);
    }
    if exists i :: 0 <= i < |errors| && errors[i].code == Some(key) {
      var i :| 0 <= i < |errors| && errors[i].code == Some(key);
      assert pairs[i].0 == key;
    }
  }

  /** The pairs are the errors' codes and messages, position by position. */
  lemma {:induction false} CodePairsAt(errors: seq<ErrorInfo>)
    requires AllCodesPresent(errors)
    ensures |CodePairs(errors)| == |errors|
    ensures forall i :: 0 <= i < |errors| ==> CodePairs(errors)[i] == (errors[i].code.value, errors[i].message)
    decreases |errors|
  {
    if errors != [] {
      var init := errors[..|errors| - 1];
      assert AllCodesPresent(init) by {
        forall i | 0 <= i < |init| ensures init[i].code.Some? {
          assert init[i] == errors[i];
        }
      }
      CodePairsAt(init);
    }
  }

  /** An error without a code makes validation mapping throw, unless a custom problem factory is configured. */
  lemma NullCodeThrows(options: ProblemDetailsOptions, result: ResultView, ctx: HttpContext, i: int)
    requires options.customProblemDetailsFactory.None? && options.mapValidationErrors
    requires 0 <= i < |result.errors| && result.errors[i].code.None?
    ensures FilterProblem(options, result, ctx) == Failure(ArgumentNull("key"))
  {
  }

  /**
   * Without custom factories the problem carries the status code, the result's
   * error message, the default problem type and the request path's escaped
   * string form ("" for an empty path); its title is
   * the validation title when errors are mapped, else the mapped or described
   * title; and it is a validation problem exactly when errors are mapped.
   */
  lemma BuiltInProblem(options: ProblemDetailsOptions, result: ResultView, ctx: HttpContext)
    requires options.customProblemDetailsFactory.None? && options.customValidationProblemDetailsFactory.None?
    requires AllCodesPresent(result.errors)
    ensures var pd := FilterProblem(options, result, ctx).value;
      var mapped := options.mapValidationErrors && |result.errors| > 0;
      pd.status == Some(result.status.code) && pd.detail == result.error &&
      pd.problemType == options.defaultProblemType && pd.instance == Some(PathString.ToUriComponent(ctx.requestPath)) &&
      (mapped ==> pd.title == Some(options.validationProblemTitle) && pd.validationErrors == Some(ErrorsByCode(result.errors).value)) &&
      (!mapped ==> pd.title == Some(Title(options, result)) && pd.validationErrors.None?)
  {
  }

  /** Without custom factories, `traceId` is the only possible extension, present exactly when requested. */
  lemma TraceIdIffRequested(options: ProblemDetailsOptions, result: ResultView, ctx: HttpContext)
    requires options.customProblemDetailsFactory.None? && options.customValidationProblemDetailsFactory.None?
    requires FilterProblem(options, result, ctx).Success?
    ensures var ext := FilterProblem(options, result, ctx).value.extensions;
      ("traceId" in ext <==> options.includeTraceId) &&
      (options.includeTraceId ==> ext == map["traceId" := TraceId(ctx.traceIdentifier)]) &&
      (!options.includeTraceId ==> ext == map[])
  {
  }
}
