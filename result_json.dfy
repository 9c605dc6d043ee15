/**
 * The JSON converter factory for results and its two converters (non-generic
 * and generic). `Write` emits a fixed sequence of properties through a JSON
 * writer; `Read` walks the reader's tokens in a loop, picking up the
 * properties it knows.
 *
 * JSON is modelled as a token stream. A value the element serializer writes
 * or reads as a whole (a status, an error list, a message list, a generic
 * value) is one token, which is how the converter sees it: it hands such a
 * value to the serializer in one call.
 */
module ResultJson {
  import opened Wrappers
  import opened Text
  import opened Results

  /** Reader/writer tokens. */
  datatype Token =
    | StartObject | EndObject | StartArray | EndArray
    | PropertyName(name: string)
    | Null | Bool(b: bool) | Str(s: string) | Number(n: int)
    | StatusElement(status: ResultStatus)
    | ErrorsElement(errors: seq<ErrorInfo>)
    | MessagesElement(messages: seq<string>)
    | ValueElement(value: Payload)

  /** The property names the converters write and read. */
  const IsSuccessName := "IsSuccess"
  const IsFailureName := "IsFailure"
  const StatusName := "Status"
  const MessagesName := "Messages"
  const ErrorsName := "Errors"
  const ErrorName := "Error"
  const ValueName := "Value"

  /** The type handed to the factory. */
  datatype ClrType =
    | ResultType                                   // Result
    | ResultOf(valueType: ClrType)                 // Result<T>
    | ResultInterface                              // IResult
    | GenericResultInterface(valueType: ClrType)   // IResult<T>
    | OtherType(name: string, implementsResult: bool)

  /** The two converters the factory creates. */
  datatype Converter = NonGenericConverter | GenericConverter(valueType: ClrType)

  /** `CanConvert`: the type is assignable to `IResult`. */
  predicate CanConvert(t: ClrType) {
    match t
    case OtherType(_, implementsResult) => implementsResult
    case _ => true
  }

  /** `CreateConverter`: only `Result<T>` and `Result` get a converter. */
  function CreateConverter(t: ClrType): (r: Option<Converter>)
    ensures r.Some? <==> t.ResultType? || t.ResultOf?
    ensures t.ResultOf? ==> r == Some(GenericConverter(t.valueType))
    ensures t.ResultType? ==> r == Some(NonGenericConverter)
  {
    match t
    case ResultOf(v) => Some(GenericConverter(v))
    case ResultType => Some(NonGenericConverter)
    case _ => None
  }

  /**
   * A converter is only created for a convertible type, but not every
   * convertible type gets one: the factory answers null for the interfaces
   * and for other implementing classes.
   */
  lemma ConvertersCoverOnlyTheConcreteResults(t: ClrType)
    ensures CreateConverter(t).Some? ==> CanConvert(t)
    ensures CanConvert(ResultInterface) && CreateConverter(ResultInterface).None?
    ensures CanConvert(OtherType("Custom", true)) && CreateConverter(OtherType("Custom", true)).None?
    ensures !CanConvert(t) ==> CreateConverter(t).None?
  {
  }

  // ---------------------------------------------------------------- writing

  /** The token of a generic value: null or the serialized value. */
  function ValueToken(v: Option<Payload>): Token {
    if v.None? then Null else ValueElement(v.value)
  }

  /** The part written for the messages: only when there are any. */
  function MessagesPart(r: ResultView): seq<Token> {
    if |r.messages| > 0 then [PropertyName(MessagesName), MessagesElement(r.messages)] else []
  }

  /** The part written for the errors; the generic converter writes the value instead only on a success without errors. */
  function ErrorsPart(conv: Converter, r: ResultView): seq<Token> {
    if |r.errors| > 0 then [PropertyName(ErrorsName), ErrorsElement(r.errors)]
    else if conv.GenericConverter? && r.isSuccess then [PropertyName(ValueName), ValueToken(r.value)]
    else []
  }

  /** The part written for `Error`: only when it is not null or white space. */
  function ErrorPart(r: ResultView): seq<Token> {
    if !IsNullOrWhiteSpace(r.error) then [PropertyName(ErrorName), Str(r.error.value)] else []
  }

  /** The part always written first: the object start, `IsSuccess`, `IsFailure` and `Status`. */
  function Header(r: ResultView): seq<Token> {
    [StartObject,
     PropertyName(IsSuccessName), Bool(r.isSuccess),
     PropertyName(IsFailureName), Bool(r.isFailure),
     PropertyName(StatusName), StatusElement(r.status)]
  }

  /** Everything `Write` emits for a result. */
  function WriteTokens(conv: Converter, r: ResultView): seq<Token> {
    Header(r) + (MessagesPart(r) + (ErrorsPart(conv, r) + (ErrorPart(r) + [EndObject])))
  }

  /** A `Utf8JsonWriter`: the tokens written so far. */
  class JsonWriter {
    var written: seq<Token>

    constructor ()
      ensures written == []
    {
      written := [];
    }

    method WriteStartObject()
      modifies this
      ensures written == old(written) + [StartObject]
    {
      written := written + [StartObject];
    }

    method WriteEndObject()
      modifies this
      ensures written == old(written) + [EndObject]
    {
      written := written + [EndObject];
    }

    method WritePropertyName(name: string)
      modifies this
      ensures written == old(written) + [PropertyName(name)]
    {
      written := written + [PropertyName(name)];
    }

    method WriteBooleanValue(b: bool)
      modifies this
      ensures written == old(written) + [Bool(b)]
    {
      written := written + [Bool(b)];
    }

    method WriteStringValue(s: string)
      modifies this
      ensures written == old(written) + [Str(s)]
    {
      written := written + [Str(s)];
    }

    /** `JsonSerializer.Serialize(writer, element)`: the element serializer writes one value. */
    method Serialize(element: Token)
      modifies this
      ensures written == old(written) + [element]
    {
      written := written + [element];
    }
  }

  /** The properties `Write` always emits. */
  method WriteHeader(writer: JsonWriter, r: ResultView)
    modifies writer
    ensures writer.written == old(writer.written) + Header(r)
  {
    writer.WriteStartObject();
    writer.WritePropertyName(IsSuccessName);
    writer.WriteBooleanValue(r.isSuccess);
    writer.WritePropertyName(IsFailureName);
    writer.WriteBooleanValue(r.isFailure);
    writer.WritePropertyName(StatusName);
    writer.Serialize(StatusElement(r.status));
  }

  /** The conditional properties of `Write`, then the end of the object. */
  method WriteOptionalParts(conv: Converter, writer: JsonWriter, r: ResultView)
    modifies writer
    ensures writer.written == old(writer.written) + (MessagesPart(r) + (ErrorsPart(conv, r) + (ErrorPart(r) + [EndObject])))
  {
    ghost var start := writer.written;
    if |r.messages| > 0 {
      writer.WritePropertyName(MessagesName);
      writer.Serialize(MessagesElement(r.messages));
    }
    assert writer.written == start + MessagesPart(r);
    ghost var afterMessages := writer.written;
    if |r.errors| > 0 {
      writer.WritePropertyName(ErrorsName);
      writer.Serialize(ErrorsElement(r.errors));
    } else if conv.GenericConverter? && r.isSuccess {
      writer.WritePropertyName(ValueName);
      writer.Serialize(ValueToken(r.value));
    }
    assert writer.written == afterMessages + ErrorsPart(conv, r);
    ghost var afterErrors := writer.written;
    if !IsNullOrWhiteSpace(r.error) {
      writer.WritePropertyName(ErrorName);
      writer.WriteStringValue(r.error.value);
    }
    assert writer.written == afterErrors + ErrorPart(r);
    ghost var afterError := writer.written;
    writer.WriteEndObject();
    AppendFour(start, MessagesPart(r), ErrorsPart(conv, r), ErrorPart(r), [EndObject]);
  }

  /** `Write` of either converter: the writer receives exactly `WriteTokens`. */
  method Write(conv: Converter, writer: JsonWriter, r: ResultView)
    modifies writer
    ensures writer.written == old(writer.written) + WriteTokens(conv, r)
  {
    WriteHeader(writer, r);
    WriteOptionalParts(conv, writer, r);
  }

  /** Appending five pieces one after the other. */
  lemma AppendFour(a: seq<Token>, b: seq<Token>, c: seq<Token>, d: seq<Token>, e: seq<Token>)
    ensures (((a + b) + c) + d) + e == a + (b + (c + (d + e)))
  {
  }

  // ---------------------------------------------------------------- reading

  /** What `Read` can throw: a `JsonException`. */
  datatype JsonError = ExpectedStartObject | CannotDeserialize(propertyName: string)

  /** The locals of the read loop; `None` stands for null. */
  datatype Fields = Fields(
    status: Option<ResultStatus>,
    errors: Option<seq<ErrorInfo>>,
    messages: Option<seq<string>>,
    value: Option<Payload>,
    valueFound: bool)

  const NoFields := Fields(None, None, None, None, false)

  /**
   * One property: the serializer reads the value token for a known property
   * (and throws when it is not of the expected type: a status struct cannot be
   * null); any other property is left alone.
   */
  function StepProperty(conv: Converter, f: Fields, name: string, tok: Token): (r: Result<Fields, JsonError>)
    ensures (name != StatusName && name != ErrorsName && name != MessagesName &&
             (name != ValueName || conv.NonGenericConverter?)) ==> r == Success(f)
    ensures r.Success? && name != StatusName ==> r.value.status == f.status
    ensures r.Success? && name != ErrorsName ==> r.value.errors == f.errors
    ensures r.Success? && name != MessagesName ==> r.value.messages == f.messages
    ensures r.Success? && (name != ValueName || conv.NonGenericConverter?) ==>
      r.value.value == f.value && r.value.valueFound == f.valueFound
    ensures r.Success? && name == ValueName && conv.GenericConverter? ==> r.value.valueFound
  {
    if name == StatusName then
      if tok.StatusElement? then Success(f.(status := Some(tok.status))) else Failure(CannotDeserialize(name))
    else if name == ErrorsName then
      if tok.ErrorsElement? then Success(f.(errors := Some(tok.errors)))
      else if tok.Null? then Success(f.(errors := None))
      else Failure(CannotDeserialize(name))
    else if name == MessagesName then
      if tok.MessagesElement? then Success(f.(messages := Some(tok.messages)))
      else if tok.Null? then Success(f.(messages := None))
      else Failure(CannotDeserialize(name))
    else if name == ValueName && conv.GenericConverter? then
      if tok.ValueElement? then Success(f.(value := Some(tok.value), valueFound := true))
      else if tok.Null? then Success(f.(value := None, valueFound := true))
      else Failure(CannotDeserialize(name))
    else Success(f)
  }

  /**
   * The read loop over the tokens after the current one: stop at the end of
   * input or at the first `EndObject`; on a property name move once to its
   * value (staying put at the end of input) and read it; skip anything else.
   */
  function ReadBody(conv: Converter, rest: seq<Token>, f: Fields): Result<Fields, JsonError>
    decreases |rest|
  {
    if rest == [] then Success(f)
    else if rest[0].EndObject? then Success(f)
    else if rest[0].PropertyName? then
      var valueAt := if |rest| > 1 then 1 else 0;
      var step := StepProperty(conv, f, rest[0].name, rest[valueAt]);
      if step.Failure? then Failure(step.error) else ReadBody(conv, rest[valueAt + 1..], step.value)
    else ReadBody(conv, rest[1..], f)
  }

  /** The error put in place when no status was read. */
  const DeserializationError := NewErrorInfo(General, "DeserializationError", "Could not determine result status during deserialization.")

  /** The constructor arguments of the result `Read` returns. */
  datatype Decoded = Decoded(status: ResultStatus, messages: Option<seq<string>>, errors: Option<seq<ErrorInfo>>, value: Option<Payload>)

  /** After the loop: a missing status becomes 500, and then missing errors become the deserialization error. */
  function Finish(f: Fields): (d: Decoded)
    ensures f.status.Some? ==> d.status == f.status.value && d.errors == f.errors
    ensures f.status.None? ==> d.status == ErrorStatus
    ensures f.status.None? && f.errors.None? ==> d.errors == Some([DeserializationError])
    ensures f.status.None? && f.errors.Some? ==> d.errors == f.errors
    ensures d.messages == f.messages
    ensures d.value == (if f.valueFound then f.value else None)
  {
    var value := if f.valueFound then f.value else None;
    if f.status.None? then
      Decoded(ErrorStatus, f.messages, if f.errors.None? then Some([DeserializationError]) else f.errors, value)
    else Decoded(f.status.value, f.messages, f.errors, value)
  }

  /** `Read` of either converter. */
  function ReadSpec(conv: Converter, tokens: seq<Token>): (r: Result<Decoded, JsonError>)
    ensures |tokens| == 0 || !tokens[0].StartObject? ==> r == Failure(ExpectedStartObject)
  {
    if |tokens| == 0 || !tokens[0].StartObject? then Failure(ExpectedStartObject)
    else
      var body := ReadBody(conv, tokens[1..], NoFields);
      if body.Failure? then Failure(body.error) else Success(Finish(body.value))
  }

  /** The reader loop as written: local variables updated token by token. */
  method Read(conv: Converter, tokens: seq<Token>) returns (r: Result<Decoded, JsonError>)
    ensures r == ReadSpec(conv, tokens)
  {
    if |tokens| == 0 || !tokens[0].StartObject? {
      return Failure(ExpectedStartObject);
    }
    var status: Option<ResultStatus> := None;
    var errors: Option<seq<ErrorInfo>> := None;
    var messages: Option<seq<string>> := None;
    var value: Option<Payload> := None;
    var valueFound := false;
    var pos := 0;
    while pos + 1 < |tokens|
      invariant 0 <= pos < |tokens|
      invariant ReadBody(conv, tokens[1..], NoFields) ==
                ReadBody(conv, tokens[pos + 1..], Fields(status, errors, messages, value, valueFound))
      decreases |tokens| - pos
    {
      ghost var f := Fields(status, errors, messages, value, valueFound);
      ghost var rest := tokens[pos + 1..];
      pos := pos + 1;
      if tokens[pos].EndObject? {
        break;
      }
      if tokens[pos].PropertyName? {
        var name := tokens[pos].name;
        if pos + 1 < |tokens| {
          pos := pos + 1;
        }
        var tok := tokens[pos];
        assert rest[(if |rest| > 1 then 1 else 0)] == tok;
        assert rest[(if |rest| > 1 then 1 else 0) + 1..] == tokens[pos + 1..];
        if name == StatusName {
          if tok.StatusElement? {
            status := Some(tok.status);
          } else {
            return Failure(CannotDeserialize(name));
          }
        } else if name == ErrorsName {
          if tok.ErrorsElement? {
            errors := Some(tok.errors);
          } else if tok.Null? {
            errors := None;
          } else {
            return Failure(CannotDeserialize(name));
          }
        } else if name == MessagesName {
          if tok.MessagesElement? {
            messages := Some(tok.messages);
          } else if tok.Null? {
            messages := None;
          } else {
            return Failure(CannotDeserialize(name));
          }
        } else if name == ValueName && conv.GenericConverter? {
          if tok.ValueElement? {
            value := Some(tok.value);
          } else if tok.Null? {
            value := None;
          } else {
            return Failure(CannotDeserialize(name));
          }
          valueFound := true;
        }
      } else {
        assert rest[1..] == tokens[pos + 1..];
      }
    }
    var f := Fields(status, errors, messages, value, valueFound);
    assert ReadBody(conv, tokens[1..], NoFields) == Success(f);
    return Success(Finish(f));
  }

  // ---------------------------------------------------------------- properties

  /** Reading a property name followed by its value. */
  lemma ReadPair(conv: Converter, name: string, v: Token, rest: seq<Token>, f: Fields)
    ensures ReadBody(conv, [PropertyName(name), v] + rest, f) ==
      (var step := StepProperty(conv, f, name, v);
       if step.Failure? then Failure(step.error) else ReadBody(conv, rest, step.value))
  {
    assert ([PropertyName(name), v] + rest)[2..] == rest;
  }

  /** Reading past the header leaves only the status set. */
  lemma ReadHeader(conv: Converter, r: ResultView, rest: seq<Token>)
    ensures ReadBody(conv, Header(r)[1..] + rest, NoFields) == ReadBody(conv, rest, NoFields.(status := Some(r.status)))
  {
    var statusPair := [PropertyName(StatusName), StatusElement(r.status)] + rest;
    var failurePair := [PropertyName(IsFailureName), Bool(r.isFailure)] + statusPair;
    assert Header(r)[1..] + rest == [PropertyName(IsSuccessName), Bool(r.isSuccess)] + failurePair;
    ReadPair(conv, IsSuccessName, Bool(r.isSuccess), failurePair, NoFields);
    ReadPair(conv, IsFailureName, Bool(r.isFailure), statusPair, NoFields);
    ReadPair(conv, StatusName, StatusElement(r.status), rest, NoFields);
  }

  /** Reading the messages part sets the messages when they were written. */
  lemma ReadMessagesPart(conv: Converter, r: ResultView, rest: seq<Token>, f: Fields)
    ensures ReadBody(conv, MessagesPart(r) + rest, f) ==
      ReadBody(conv, rest, if |r.messages| > 0 then f.(messages := Some(r.messages)) else f)
  {
    if |r.messages| > 0 {
      ReadPair(conv, MessagesName, MessagesElement(r.messages), rest, f);
    } else {
      assert MessagesPart(r) + rest == rest;
    }
  }

  /** Reading the errors part sets the errors, or the generic value, as written. */
  lemma ReadErrorsPart(conv: Converter, r: ResultView, rest: seq<Token>, f: Fields)
    ensures ReadBody(conv, ErrorsPart(conv, r) + rest, f) ==
      ReadBody(conv, rest,
        if |r.errors| > 0 then f.(errors := Some(r.errors))
        else if conv.GenericConverter? && r.isSuccess then f.(value := r.value, valueFound := true)
        else f)
  {
    if |r.errors| > 0 {
      ReadPair(conv, ErrorsName, ErrorsElement(r.errors), rest, f);
    } else if conv.GenericConverter? && r.isSuccess {
      ReadPair(conv, ValueName, ValueToken(r.value), rest, f);
    } else {
      assert ErrorsPart(conv, r) + rest == rest;
    }
  }

  /** `Error` is read past, and the closing `EndObject` ends the read. */
  lemma ReadErrorPart(conv: Converter, r: ResultView, f: Fields)
    ensures ReadBody(conv, ErrorPart(r) + [EndObject], f) == Success(f)
  {
    if !IsNullOrWhiteSpace(r.error) {
      ReadPair(conv, ErrorName, Str(r.error.value), [EndObject], f);
    } else {
      assert ErrorPart(r) + [EndObject] == [EndObject];
    }
  }

  /**
   * Round trip: reading what `Write` wrote recovers the status, the messages
   * and the errors (absent when empty), and for the generic converter the
   * value exactly when it was written. `IsSuccess`, `IsFailure` and `Error`
   * are read past.
   */
  lemma RoundTrip(conv: Converter, r: ResultView)
    ensures ReadSpec(conv, WriteTokens(conv, r)) == Success(Decoded(
      r.status,
      if |r.messages| > 0 then Some(r.messages) else None,
      if |r.errors| > 0 then Some(r.errors) else None,
      if conv.GenericConverter? && |r.errors| == 0 && r.isSuccess then r.value else None))
  {
    var e := ErrorPart(r) + [EndObject];
    var m := ErrorsPart(conv, r) + e;
    var tail := MessagesPart(r) + m;
    assert WriteTokens(conv, r)[1..] == Header(r)[1..] + tail;
    ReadHeader(conv, r, tail);
    var f1 := NoFields.(status := Some(r.status));
    ReadMessagesPart(conv, r, m, f1);
    var f2 := if |r.messages| > 0 then f1.(messages := Some(r.messages)) else f1;
    ReadErrorsPart(conv, r, e, f2);
    var f3 := if |r.errors| > 0 then f2.(errors := Some(r.errors))
              else if conv.GenericConverter? && r.isSuccess then f2.(value := r.value, valueFound := true)
              else f2;
    ReadErrorPart(conv, r, f3);
  }

  /** `Write` always starts with `IsSuccess`, `IsFailure` and `Status`, in that order. */
  lemma WriteStartsWithFlagsAndStatus(conv: Converter, r: ResultView)
    ensures WriteTokens(conv, r)[..7] == [StartObject,
      PropertyName(IsSuccessName), Bool(r.isSuccess),
      PropertyName(IsFailureName), Bool(r.isFailure),
      PropertyName(StatusName), StatusElement(r.status)]
    ensures WriteTokens(conv, r)[|WriteTokens(conv, r)| - 1] == EndObject
  {
  }

  /** An optional property name is written exactly when one of the optional parts holds it. */
  lemma OptionalPropertyInParts(conv: Converter, r: ResultView, n: string)
    requires n == MessagesName || n == ErrorsName || n == ErrorName || n == ValueName
    ensures PropertyName(n) in WriteTokens(conv, r) <==>
      PropertyName(n) in MessagesPart(r) || PropertyName(n) in ErrorsPart(conv, r) || PropertyName(n) in ErrorPart(r)
  {
    assert PropertyName(n) !in Header(r);
  }

  /** Which optional properties `Write` emits. */
  lemma WrittenOptionalProperties(conv: Converter, r: ResultView)
    ensures PropertyName(MessagesName) in WriteTokens(conv, r) <==> |r.messages| > 0
    ensures PropertyName(ErrorsName) in WriteTokens(conv, r) <==> |r.errors| > 0
    ensures PropertyName(ErrorName) in WriteTokens(conv, r) <==> !IsNullOrWhiteSpace(r.error)
    ensures PropertyName(ValueName) in WriteTokens(conv, r) <==> conv.GenericConverter? && |r.errors| == 0 && r.isSuccess
  {
    OptionalPropertyInParts(conv, r, MessagesName);
    OptionalPropertyInParts(conv, r, ErrorsName);
    OptionalPropertyInParts(conv, r, ErrorName);
    OptionalPropertyInParts(conv, r, ValueName);
  }

  /** A read stops at the first `EndObject` not taken as a property's value: whatever follows it is never looked at. */
  lemma {:induction false} ReadStopsAtFirstEndObject(conv: Converter, body: seq<Token>, trailing: seq<Token>, f: Fields)
    requires forall i :: 0 <= i < |body| ==> !body[i].EndObject?
    requires |body| == 0 || !body[|body| - 1].PropertyName?
    ensures ReadBody(conv, body + [EndObject] + trailing, f) == ReadBody(conv, body + [EndObject], f)
    decreases |body|
  {
    var all := body + [EndObject] + trailing;
    var cut := body + [EndObject];
    if body == [] {
    } else if body[0].PropertyName? {
      var valueAt := if |body| > 1 then 1 else 0;
      assert all[0] == cut[0] == body[0];
      assert |all| > 1 && |cut| > 1 && all[1] == cut[1];
      var step := StepProperty(conv, f, body[0].name, all[1]);
      if step.Success? {
        if |body| > 1 {
          assert all[2..] == body[2..] + [EndObject] + trailing;
          assert cut[2..] == body[2..] + [EndObject];
          ReadStopsAtFirstEndObject(conv, body[2..], trailing, step.value);
        }
      }
    } else {
      assert all[1..] == body[1..] + [EndObject] + trailing;
      assert cut[1..] == body[1..] + [EndObject];
      ReadStopsAtFirstEndObject(conv, body[1..], trailing, f);
    }
  }

  /** Without a `Status` property the loop never sets the status. */
  lemma {:induction false} NoStatusPropertyKeepsStatus(conv: Converter, rest: seq<Token>, f: Fields)
    requires forall i :: 0 <= i < |rest| ==> rest[i] != PropertyName(StatusName)
    ensures ReadBody(conv, rest, f).Success? ==> ReadBody(conv, rest, f).value.status == f.status
    decreases |rest|
  {
    if rest != [] && !rest[0].EndObject? {
      if rest[0].PropertyName? {
        var valueAt := if |rest| > 1 then 1 else 0;
        var step := StepProperty(conv, f, rest[0].name, rest[valueAt]);
        if step.Success? {
          NoStatusPropertyKeepsStatus(conv, rest[valueAt + 1..], step.value);
        }
      } else {
        NoStatusPropertyKeepsStatus(conv, rest[1..], f);
      }
    }
  }

  /**
   * A payload without `Status` reads as the 500 "Internal Server Error"
   * status; the errors read are kept, and only when there were none does the
   * single deserialization error stand in.
   */
  lemma MissingStatusIsServerError(conv: Converter, tokens: seq<Token>)
    requires forall i :: 0 <= i < |tokens| ==> tokens[i] != PropertyName(StatusName)
    requires ReadSpec(conv, tokens).Success?
    ensures ReadSpec(conv, tokens).value.status == ErrorStatus
    ensures ReadSpec(conv, tokens).value.status.code == 500
    ensures ReadSpec(conv, tokens).value.errors.Some?
  {
    NoStatusPropertyKeepsStatus(conv, tokens[1..], NoFields);
  }

  /**
   * An unknown property is passed with a single `Read`: when its value is an
   * object, the object's own properties are read as if they were top-level
   * and its `EndObject` ends the read. This is the converter's own answer;
   * the serializer's check that a converter stops on the matching end of
   * the object, which turns it into a `JsonException`, is not modelled.
   */
  lemma NestedObjectQuirk(s: ResultStatus, t: ResultStatus)
    ensures ReadSpec(NonGenericConverter,
      [StartObject, PropertyName("Meta"), StartObject, PropertyName(StatusName), StatusElement(s), EndObject,
       PropertyName(StatusName), StatusElement(t), EndObject]) == Success(Decoded(s, None, None, None))
  {
    var tokens := [StartObject, PropertyName("Meta"), StartObject, PropertyName(StatusName), StatusElement(s), EndObject,
       PropertyName(StatusName), StatusElement(t), EndObject];
    var rest := tokens[1..];
    assert rest == [PropertyName("Meta"), StartObject] + [PropertyName(StatusName), StatusElement(s), EndObject,
       PropertyName(StatusName), StatusElement(t), EndObject];
    ReadPair(NonGenericConverter, "Meta", StartObject, rest[2..], NoFields);
    assert rest[2..] == [PropertyName(StatusName), StatusElement(s)] + [EndObject, PropertyName(StatusName), StatusElement(t), EndObject];
    ReadPair(NonGenericConverter, StatusName, StatusElement(s), rest[4..], NoFields);
  }
}
