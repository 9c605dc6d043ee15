/**
 * Converting a failed result into problem details in the sense of RFC 7807
 * (and its successor RFC 9457): the factory builds a plain or a validation
 * problem; the missing members are then filled in from the result and the
 * request; and the error tree is attached as the `zentientErrors` extension.
 * Also the category-based HTTP status table of the same file.
 *
 * The problem-details factory is framework code: it is a function parameter,
 * called with the arguments the conversion hands it.
 */
module ProblemDetailsMapping {
  import opened Wrappers
  import opened Text
  import opened Results
  import opened ModelErrors

  /** The base of every problem type URI. */
  const DefaultProblemTypeBaseUri := "https://yourdomain.com/errors/"

  /**
   * What the conversions read from the HTTP context: the request path's
   * `Value` (None when the path has none) and the trace identifier.
   */
  datatype HttpContext = HttpContext(requestPath: Option<string>, traceIdentifier: string)

  /** The dictionary `ToErrorObject` builds for one error; `None` members are absent keys. */
  datatype ErrorObject = ErrorObject(
    category: string,
    code: Option<string>,
    message: string,
    data: Option<DataValue>,
    innerErrors: InnerErrorObjects)

  /** The `innerErrors` key of an error object: absent, or the converted list. */
  datatype InnerErrorObjects = NoInnerErrorsKey | InnerErrorsKey(objects: seq<ErrorObject>)

  /** The keys an error object holds. */
  function ErrorObjectKeys(o: ErrorObject): set<string> {
    {"category", "code", "message"}
    + (if o.data.Some? then {"data"} else {})
    + (if o.innerErrors.InnerErrorsKey? then {"innerErrors"} else {})
  }

  /** A value in a problem's extension members. */
  datatype ExtensionValue = ErrorObjects(objects: seq<ErrorObject>) | TraceId(traceId: string) | OtherExtension(id: nat)

  /** A problem; `validationErrors` is present exactly for a validation problem. */
  datatype ProblemDetails = ProblemDetails(
    validationErrors: Option<map<string, seq<string>>>,
    status: Option<int>,
    title: Option<string>,
    detail: Option<string>,
    problemType: Option<string>,
    instance: Option<string>,
    extensions: map<string, ExtensionValue>)

  /** The two factory calls. */
  datatype FactoryCall =
    | CreateProblemDetailsCall(statusCode: int, title: string, problemType: string, detail: Option<string>)
    | CreateValidationProblemDetailsCall(modelState: map<string, seq<string>>, statusCode: int, title: string,
                                         problemType: string, detail: Option<string>)

  /** A problem-details factory: what it returns for a call in a context. */
  datatype ProblemDetailsFactory = ProblemDetailsFactory(create: (HttpContext, FactoryCall) -> ProblemDetails)

  /** The exceptions the conversion throws. */
  datatype ProblemError = ArgumentNull(paramName: string) | InvalidOperation

  // ---------------------------------------------------------------- the error tree

  /** `ToErrorObject`: category name, code and message always; data when not null; inner errors when any, converted recursively. */
  function ToErrorObject(e: ErrorInfo): (o: ErrorObject)
    decreases e, 1
  {
    ErrorObject(
      CategoryName(e.category), e.code, e.message, e.data,
      if e.innerErrors.InnerErrorList? && |e.innerErrors.items| > 0 then InnerErrorsKey(ToErrorObjects(e.innerErrors.items)) else NoInnerErrorsKey)
  }

  /** The error objects of a list, in order. */
  function ToErrorObjects(es: seq<ErrorInfo>): (os: seq<ErrorObject>)
    ensures |os| == |es|
    decreases es, 0
  {
    if es == [] then [] else [ToErrorObject(es[0])] + ToErrorObjects(es[1..])
  }

  /** Reading an error object back into an error; fails only on an unknown category name. */
  function FromErrorObject(o: ErrorObject): Option<ErrorInfo>
    decreases o, 1
  {
    var category := ParseCategory(o.category);
    if category.None? then None
    else if o.innerErrors.NoInnerErrorsKey? then Some(ErrorInfo(category.value, o.code, o.message, o.data, NullInnerErrors))
    else
      var inner := FromErrorObjects(o.innerErrors.objects);
      if inner.None? then None else Some(ErrorInfo(category.value, o.code, o.message, o.data, InnerErrorList(inner.value)))
  }

  /** Reading a list of error objects back. */
  function FromErrorObjects(os: seq<ErrorObject>): Option<seq<ErrorInfo>>
    decreases os, 0
  {
    if os == [] then Some([])
    else
      var head := FromErrorObject(os[0]);
      var tail := FromErrorObjects(os[1..]);
      if head.None? || tail.None? then None else Some([head.value] + tail.value)
  }

  /** An error with every empty inner-error list replaced by null: what the error tree cannot tell apart. */
  function Normalized(e: ErrorInfo): ErrorInfo
    decreases e, 1
  {
    e.(innerErrors := if e.innerErrors.InnerErrorList? && |e.innerErrors.items| > 0 then InnerErrorList(NormalizedAll(e.innerErrors.items)) else NullInnerErrors)
  }

  function NormalizedAll(es: seq<ErrorInfo>): (r: seq<ErrorInfo>)
    ensures |r| == |es|
    decreases es, 0
  {
    if es == [] then [] else [Normalized(es[0])] + NormalizedAll(es[1..])
  }

  /** The error tree loses nothing but the difference between a null and an empty inner-error list. */
  lemma {:induction false} ErrorObjectRoundTrip(e: ErrorInfo)
    ensures FromErrorObject(ToErrorObject(e)) == Some(Normalized(e))
    decreases e, 1
  {
    CategoryNameRoundTrip(e.category);
    if e.innerErrors.InnerErrorList? && |e.innerErrors.items| > 0 {
      ErrorObjectsRoundTrip(e.innerErrors.items);
    }
  }

  lemma {:induction false} ErrorObjectsRoundTrip(es: seq<ErrorInfo>)
    ensures FromErrorObjects(ToErrorObjects(es)) == Some(NormalizedAll(es))
    decreases es, 0
  {
    if es != [] {
      ErrorObjectRoundTrip(es[0]);
      ErrorObjectsRoundTrip(es[1..]);
      assert ToErrorObjects(es)[1..] == ToErrorObjects(es[1..]);
    }
  }

  /** The keys of an error object: `data` iff the error has data, `innerErrors` iff it has inner errors. */
  lemma ErrorObjectShape(e: ErrorInfo)
    ensures {"category", "code", "message"} <= ErrorObjectKeys(ToErrorObject(e))
    ensures "data" in ErrorObjectKeys(ToErrorObject(e)) <==> e.data.Some?
    ensures "innerErrors" in ErrorObjectKeys(ToErrorObject(e)) <==> e.innerErrors.InnerErrorList? && |e.innerErrors.items| > 0
    ensures ToErrorObject(e).category == CategoryName(e.category)
    ensures ToErrorObject(e).code == e.code && ToErrorObject(e).message == e.message
  {
  }

  /** `AddErrorInfoExtensions`: `zentientErrors` is set to one object per error, and only when there are errors. */
  function WithErrorExtension(pd: ProblemDetails, errors: seq<ErrorInfo>): (r: ProblemDetails)
    ensures |errors| == 0 ==> r == pd
    ensures |errors| > 0 ==> r == pd.(extensions := pd.extensions["zentientErrors" := ErrorObjects(ToErrorObjects(errors))])
  {
    if |errors| == 0 then pd
    else pd.(extensions := pd.extensions["zentientErrors" := ErrorObjects(ToErrorObjects(errors))])
  }

  // ---------------------------------------------------------------- the problem

  /** The problem type: the base URI plus the first error's code, or plus the status code when that code is null. */
  function ProblemType(result: ResultView): (t: string)
    ensures FirstCode(result.errors).Some? ==> t == DefaultProblemTypeBaseUri + FirstCode(result.errors).value
    ensures FirstCode(result.errors).None? ==> t == DefaultProblemTypeBaseUri + IntToString(result.status.code)
  {
    DefaultProblemTypeBaseUri + FirstCode(result.errors).GetOr(IntToString(result.status.code))
  }

  /** The validation branch: status 422 or some `Validation` error. */
  predicate IsValidationProblem(result: ResultView) {
    result.status.code == 422 || exists i :: 0 <= i < |result.errors| && result.errors[i].category == Validation
  }

  /** The model-state key of a validation error: its code, else its data when that is a non-blank string, else `"General"`. */
  function ModelStateKey(e: ErrorInfo): (k: string)
    ensures !IsNullOrWhiteSpace(e.code) ==> k == e.code.value
    ensures IsNullOrWhiteSpace(e.code) && e.data.Some? && e.data.value.DataString? && !IsNullOrWhiteSpace(Some(e.data.value.s)) ==>
            k == e.data.value.s
    ensures k == "General" || k == e.code.GetOr("") || (e.data.Some? && e.data.value.DataString? && k == e.data.value.s)
    ensures !IsNullOrWhiteSpace(Some(k))
  {
    if !IsNullOrWhiteSpace(e.code) then e.code.value
    else if e.data.Some? && e.data.value.DataString? && !IsNullOrWhiteSpace(Some(e.data.value.s)) then e.data.value.s
    else
      assert !IsWhiteSpaceChar("General"[0]);
      "General"
  }

  /** A code of Unicode white space, such as a no-break space, is blank: the key falls back to `"General"` when there is no data. */
  lemma UnicodeSpaceCodeIsBlank(e: ErrorInfo)
    requires e.code == Some("\U{A0}\U{3000}") && e.data.None?
    ensures ModelStateKey(e) == "General"
  {
    assert IsWhiteSpaceChar(e.code.value[0]) && IsWhiteSpaceChar(e.code.value[1]);
  }

  /** The `(key, message)` pairs the model state receives: one per validation error, in order. */
  function ModelStatePairs(errors: seq<ErrorInfo>): seq<(string, string)>
    decreases |errors|
  {
    if errors == [] then []
    else
      var last := errors[|errors| - 1];
      ModelStatePairs(errors[..|errors| - 1]) + (if last.category == Validation then [(ModelStateKey(last), last.message)] else [])
  }

  /** The model state handed to the validation factory. */
  function ModelStateOf(errors: seq<ErrorInfo>): map<string, seq<string>> {
    WithModelErrors(map[], ModelStatePairs(errors))
  }

  /** The pair a validation error contributes to the model state. */
  predicate ContributesPair(e: ErrorInfo, p: (string, string)) {
    e.category == Validation && p == (ModelStateKey(e), e.message)
  }

  /** Only validation errors contribute pairs, each under its model-state key. */
  lemma {:induction false} ModelStatePairsAreValidationErrors(errors: seq<ErrorInfo>, p: (string, string))
    ensures p in ModelStatePairs(errors) <==> exists i :: 0 <= i < |errors| && ContributesPair(errors[i], p)
    decreases |errors|
  {
    if errors != [] {
      var init := errors[..|errors| - 1];
      var last := errors[|errors| - 1];
      var tail := if last.category == Validation then [(ModelStateKey(last), last.message)] else [];
      ModelStatePairsAreValidationErrors(init, p);
      assert ModelStatePairs(errors) == ModelStatePairs(init) + tail;
      assert p in tail <==> ContributesPair(last, p);
      if p in ModelStatePairs(init) {
        var i :| 0 <= i < |init| && ContributesPair(init[i], p);
        assert errors[i] == init[i];
      }
      if exists i :: 0 <= i < |errors| && ContributesPair(errors[i], p) {
        var i :| 0 <= i < |errors| && ContributesPair(errors[i], p);
        if i < |init| {
          assert init[i] == errors[i];
        }
      }
    }
  }

  /** The model-state keys are the keys of the validation errors; other categories never appear. */
  lemma ModelStateKeysAreValidationKeys(errors: seq<ErrorInfo>, key: string)
    ensures key in ModelStateOf(errors) <==>
      exists i :: 0 <= i < |errors| && errors[i].category == Validation && ModelStateKey(errors[i]) == key
  {
    var pairs := ModelStatePairs(errors);
    ModelErrorsInOrder(map[], pairs, key);
    MessagesForNonEmpty(pairs, key);
    if key in ModelStateOf(errors) {
      var j :| 0 <= j < |pairs| && pairs[j].0 == key;
      ModelStatePairsAreValidationErrors(errors, pairs[j]);
    }
    if exists i :: 0 <= i < |errors| && errors[i].category == Validation && ModelStateKey(errors[i]) == key {
      var i :| 0 <= i < |errors| && errors[i].category == Validation && ModelStateKey(errors[i]) == key;
      ModelStatePairsAreValidationErrors(errors, (key, errors[i].message));
      var j :| 0 <= j < |pairs| && pairs[j] == (key, errors[i].message);
    }
  }

  /** Some pair has the key iff the key's message list is not empty. */
  lemma {:induction false} MessagesForNonEmpty(pairs: seq<(string, string)>, key: string)
    ensures MessagesFor(pairs, key) != [] <==> exists j :: 0 <= j < |pairs| && pairs[j].0 == key
    decreases |pairs|
  {
    if pairs != [] {
      var init := pairs[..|pairs| - 1];
      MessagesForNonEmpty(init, key);
      if exists j :: 0 <= j < |init| && init[j].0 == key {
        var j :| 0 <= j < |init| && init[j].0 == key;
        assert pairs[j] == init[j];
      }
      if exists j :: 0 <= j < |pairs| && pairs[j].0 == key {
        var j :| 0 <= j < |pairs| && pairs[j].0 == key;
        if j < |init| {
          assert init[j] == pairs[j];
        }
      }
    }
  }

  /** The factory call: the validation factory with the model state, or the plain one. */
  function FactoryCallFor(result: ResultView): (c: FactoryCall)
    ensures c.CreateValidationProblemDetailsCall? <==> IsValidationProblem(result)
    ensures c.statusCode == result.status.code && c.title == result.status.description
    ensures c.problemType == ProblemType(result) && c.detail == result.error
    ensures c.CreateValidationProblemDetailsCall? ==> c.modelState == ModelStateOf(result.errors)
  {
    if IsValidationProblem(result) then
      CreateValidationProblemDetailsCall(ModelStateOf(result.errors), result.status.code, result.status.description,
                                         ProblemType(result), result.error)
    else CreateProblemDetailsCall(result.status.code, result.status.description, ProblemType(result), result.error)
  }

  /** The members the factory left null, filled from the result and the request. */
  function FillMissing(pd: ProblemDetails, result: ResultView, ctx: HttpContext): (r: ProblemDetails)
    ensures r.status == Some(pd.status.GetOr(result.status.code))
    ensures r.title == Some(pd.title.GetOr(result.status.description))
    ensures r.detail == (if pd.detail.Some? then pd.detail else result.error)
    ensures r.problemType == Some(pd.problemType.GetOr(ProblemType(result)))
    ensures r.instance == (if pd.instance.Some? then pd.instance else ctx.requestPath)
    ensures r.validationErrors == pd.validationErrors && r.extensions == pd.extensions
  {
    pd.(status := Some(pd.status.GetOr(result.status.code)),
        title := Some(pd.title.GetOr(result.status.description)),
        detail := if pd.detail.Some? then pd.detail else result.error,
        problemType := Some(pd.problemType.GetOr(ProblemType(result))),
        instance := if pd.instance.Some? then pd.instance else ctx.requestPath)
  }

  /** `ToProblemDetails` (either overload: the generic one delegates). */
  function ProblemDetailsFor(result: ResultView, factory: Option<ProblemDetailsFactory>, ctx: Option<HttpContext>): (r: Result<ProblemDetails, ProblemError>)
    ensures factory.None? ==> r == Failure(ArgumentNull("factory"))
    ensures factory.Some? && ctx.None? ==> r == Failure(ArgumentNull("httpContext"))
    ensures factory.Some? && ctx.Some? && result.isSuccess ==> r == Failure(InvalidOperation)
    ensures r.Success? <==> factory.Some? && ctx.Some? && !result.isSuccess
    ensures r.Success? ==> r.value == WithErrorExtension(
      FillMissing(factory.value.create(ctx.value, FactoryCallFor(result)), result, ctx.value), result.errors)
  {
    if factory.None? then Failure(ArgumentNull("factory"))
    else if ctx.None? then Failure(ArgumentNull("httpContext"))
    else if result.isSuccess then Failure(InvalidOperation)
    else
      var created := factory.value.create(ctx.value, FactoryCallFor(result));
      Success(WithErrorExtension(FillMissing(created, result, ctx.value), result.errors))
  }

  /** One more error adds at most its own pair to the model state. */
  lemma ModelStateStep(errors: seq<ErrorInfo>, i: int)
    requires 0 <= i < |errors|
    ensures var before := WithModelErrors(map[], ModelStatePairs(errors[..i]));
      WithModelErrors(map[], ModelStatePairs(errors[..i + 1])) ==
      if errors[i].category == Validation then WithModelError(before, ModelStateKey(errors[i]), errors[i].message) else before
  {
    var pairs := ModelStatePairs(errors[..i]);
    var p := (ModelStateKey(errors[i]), errors[i].message);
    assert errors[..i + 1][..i] == errors[..i];
    assert ModelStatePairs(errors[..i + 1]) == pairs + (if errors[i].category == Validation then [p] else []);
    if errors[i].category == Validation {
      AddingOnePair(map[], pairs, p);
    } else {
      assert pairs + [] == pairs;
    }
  }

  /** Adding one more pair is one more `AddModelError`. */
  lemma AddingOnePair(d: map<string, seq<string>>, pairs: seq<(string, string)>, p: (string, string))
    ensures WithModelErrors(d, pairs + [p]) == WithModelError(WithModelErrors(d, pairs), p.0, p.1)
  {
    assert (pairs + [p])[..|pairs|] == pairs;
  }

  /** The model-state loop: every validation error is added under its key, in order. */
  method BuildModelState(errors: seq<ErrorInfo>) returns (modelState: map<string, seq<string>>)
    ensures modelState == ModelStateOf(errors)
  {
    var dictionary := new ErrorDictionary();
    var i := 0;
    while i < |errors|
      invariant 0 <= i <= |errors|
      invariant dictionary.entries == WithModelErrors(map[], ModelStatePairs(errors[..i]))
    {
      var error := errors[i];
      if error.category == Validation {
        var key := error.code.GetOr("");
        if IsNullOrWhiteSpace(Some(key)) && error.data.Some? && error.data.value.DataString? &&
           !IsNullOrWhiteSpace(Some(error.data.value.s)) {
          key := error.data.value.s;
        }
        if IsNullOrWhiteSpace(Some(key)) {
          key := "General";
        }
        assert key == ModelStateKey(error);
        dictionary.AddModelError(key, error.message);
      }
      ModelStateStep(errors, i);
      i := i + 1;
    }
    assert errors[..|errors|] == errors;
    modelState := dictionary.entries;
  }

  /** The factory call as written: the model state is filled in a loop for a validation problem. */
  method NewFactoryCall(result: ResultView) returns (call: FactoryCall)
    ensures call == FactoryCallFor(result)
  {
    var problemType := DefaultProblemTypeBaseUri + FirstCode(result.errors).GetOr(IntToString(result.status.code));
    assert problemType == ProblemType(result);
    if IsValidationProblem(result) {
      var modelState := BuildModelState(result.errors);
      call := CreateValidationProblemDetailsCall(modelState, result.status.code, result.status.description, problemType, result.error);
    } else {
      call := CreateProblemDetailsCall(result.status.code, result.status.description, problemType, result.error);
    }
  }

  /** The `??=` assignments: each member the factory left null is set in turn. */
  method FillMissingMembers(created: ProblemDetails, result: ResultView, ctx: HttpContext, problemType: string) returns (pd: ProblemDetails)
    requires problemType == ProblemType(result)
    ensures pd == FillMissing(created, result, ctx)
  {
    pd := created;
    if pd.status.None? { pd := pd.(status := Some(result.status.code)); }
    if pd.title.None? { pd := pd.(title := Some(result.status.description)); }
    if pd.detail.None? { pd := pd.(detail := result.error); }
    if pd.problemType.None? { pd := pd.(problemType := Some(problemType)); }
    if pd.instance.None? { pd := pd.(instance := ctx.requestPath); }
  }

  /** The conversion as written: the factory call, then the missing members in place, then the error extension. */
  method ToProblemDetails(result: ResultView, factory: Option<ProblemDetailsFactory>, ctx: Option<HttpContext>)
    returns (r: Result<ProblemDetails, ProblemError>)
    ensures r == ProblemDetailsFor(result, factory, ctx)
  {
    if factory.None? {
      return Failure(ArgumentNull("factory"));
    }
    if ctx.None? {
      return Failure(ArgumentNull("httpContext"));
    }
    if result.isSuccess {
      return Failure(InvalidOperation);
    }
    var call := NewFactoryCall(result);
    var created := factory.value.create(ctx.value, call);
    var pd := FillMissingMembers(created, result, ctx.value, call.problemType);
    if |result.errors| > 0 {
      pd := pd.(extensions := pd.extensions["zentientErrors" := ErrorObjects(ToErrorObjects(result.errors))]);
    }
    return Success(pd);
  }

  /**
   * The members of the returned problem: each is the factory's own value when
   * it set one, and otherwise the status code, the status description, the
   * result's error message, the problem type and the request path.
   */
  lemma FactoryValuesWin(result: ResultView, factory: ProblemDetailsFactory, ctx: HttpContext)
    requires !result.isSuccess
    ensures var created := factory.create(ctx, FactoryCallFor(result));
      var r := ProblemDetailsFor(result, Some(factory), Some(ctx)).value;
      (created.status.Some? ==> r.status == created.status) &&
      (created.status.None? ==> r.status == Some(result.status.code)) &&
      (created.title.Some? ==> r.title == created.title) &&
      (created.title.None? ==> r.title == Some(result.status.description)) &&
      (created.detail.None? ==> r.detail == result.error) &&
      (created.problemType.None? ==> r.problemType == Some(ProblemType(result))) &&
      (created.instance.None? ==> r.instance == ctx.requestPath) &&
      r.validationErrors == created.validationErrors
  {
  }

  /** `zentientErrors` is present iff there are errors (or the factory already put it there), with one object per error. */
  lemma ZentientErrorsExtension(result: ResultView, factory: ProblemDetailsFactory, ctx: HttpContext)
    requires !result.isSuccess
    requires "zentientErrors" !in factory.create(ctx, FactoryCallFor(result)).extensions
    ensures var r := ProblemDetailsFor(result, Some(factory), Some(ctx)).value;
      ("zentientErrors" in r.extensions <==> |result.errors| > 0) &&
      ("zentientErrors" in r.extensions ==>
         r.extensions["zentientErrors"].ErrorObjects? &&
         |r.extensions["zentientErrors"].objects| == |result.errors| &&
         forall i :: 0 <= i < |result.errors| ==> r.extensions["zentientErrors"].objects[i] == ToErrorObject(result.errors[i]))
  {
    if |result.errors| > 0 {
      ToErrorObjectsPointwise(result.errors);
    }
  }

  /** The list conversion is element by element. */
  lemma {:induction false} ToErrorObjectsPointwise(es: seq<ErrorInfo>)
    ensures forall i :: 0 <= i < |es| ==> ToErrorObjects(es)[i] == ToErrorObject(es[i])
    decreases |es|
  {
    if es != [] {
      ToErrorObjectsPointwise(es[1..]);
      forall i | 0 < i < |es| ensures ToErrorObjects(es)[i] == ToErrorObject(es[i]) {
        assert ToErrorObjects(es)[i] == ToErrorObjects(es[1..])[i - 1];
        assert es[1..][i - 1] == es[i];
      }
    }
  }

  // ---------------------------------------------------------------- status table

  /** This file's `ToHttpStatusCode(IResult)`: 200 on success, otherwise by the first error's category. */
  function StatusCodeFor(result: ResultView): (code: int)
    ensures result.isSuccess ==> code == 200
    ensures !result.isSuccess && |result.errors| > 0 ==> code == CategoryStatusCode(result.errors[0].category)
    ensures !result.isSuccess && |result.errors| == 0 ==> code == 500
    ensures code in {200, 400, 401, 403, 404, 408, 409, 500, 503}
  {
    if result.isSuccess then 200 else CategoryStatusCode(FirstCategory(result.errors))
  }

  /** The category table of this file. */
  function CategoryStatusCode(c: ErrorCategory): int {
    match c
    case NotFound => 404
    case Validation => 400
    case Conflict => 409
    case Authentication => 401
    case Network => 503
    case Timeout => 408
    case Security => 403
    case Request => 400
    case _ => 500
  }

  /** The table: eight categories map to specific codes; every other category, and a failure without errors, gives 500. */
  lemma CategoryStatusCodes(c: ErrorCategory, result: ResultView)
    ensures CategoryStatusCode(c) != 500 <==>
      c in {NotFound, Validation, Conflict, Authentication, Network, Timeout, Security, Request}
    ensures CategoryStatusCode(c) in {400, 401, 403, 404, 408, 409, 500, 503}
    ensures !result.isSuccess && |result.errors| == 0 ==> StatusCodeFor(result) == 500
  {
  }
}
