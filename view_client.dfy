/**
 * The view client: the timeout conversion done by its constructor, and how ExecuteAsync
 * turns the outcome of the HTTP round trip into a ViewResult and a trace of spans.
 */
module Views {
  import opened Common
  import opened Exceptions

  newtype int32 = x: int | -0x8000_0000 <= x < 0x8000_0000
  newtype uint32 = x: int | 0 <= x < 0x1_0000_0000

  const TwoTo32: int := 0x1_0000_0000

  /** An unchecked C# conversion to `uint`: the low 32 bits of `x` in two's complement. */
  function ToUInt32(x: int): uint32
  {
    (x % TwoTo32) as uint32
  }

  /** `(uint) ViewRequestTimeout * 1000`: the cast, then a product that wraps in `uint`. */
  function MillisToMicros(ms: int32): (r: uint32)
  {
    ToUInt32(ToUInt32(ms as int) as int * 1000)
  }

  /** The stored timeout is the true product reduced modulo 2^32, whatever the sign of `ms`. */
  lemma MillisToMicrosIsProductModulo(ms: int32)
    ensures MillisToMicros(ms) as int == (ms as int * 1000) % TwoTo32
  {
    var m := ms as int;
    var q := if m < 0 then -1 else 0;
    assert m % TwoTo32 == m - q * TwoTo32;
    assert m * 1000 == (m % TwoTo32) * 1000 + (q * 1000) * TwoTo32;
    ShiftByMultiple((m % TwoTo32) * 1000, q * 1000);
  }

  lemma ShiftByMultiple(a: int, k: int)
    ensures (a + k * TwoTo32) % TwoTo32 == a % TwoTo32
  {
  }

  /** The conversion is exact precisely for the timeouts from 0 to 4294967 ms. */
  lemma MillisToMicrosExactIff(ms: int32)
    ensures MillisToMicros(ms) as int == ms as int * 1000 <==> 0 <= ms <= 4294967
  {
    MillisToMicrosIsProductModulo(ms);
  }

  lemma MillisToMicrosExamples()
    ensures MillisToMicros(2500) == 2_500_000
    ensures MillisToMicros(4294968) == 704
    ensures MillisToMicros(-1) == 4_294_966_296
  {
    MillisToMicrosExactIff(2500);
    MillisToMicrosIsProductModulo(4294968);
    MillisToMicrosIsProductModulo(-1);
  }

  datatype Uri = Uri(authority: string, pathAndQuery: string)

  /** The parts of an `IViewQueryable` that ExecuteAsync reads. */
  datatype ViewQuery = ViewQuery(bucketName: string, rawUri: Uri, requestBody: string)

  /** A view operation context: bucket, endpoint and, once set, the timeout in microseconds. */
  datatype OperationContext =
    ViewContext(bucketName: string, endpoint: string, timeoutMicroseconds: Option<uint32>)

  function CreateViewContext(bucketName: string, endpoint: string): OperationContext
  {
    ViewContext(bucketName, endpoint, None)
  }

  datatype HttpResponse = HttpResponse(statusCode: int, reasonPhrase: Option<string>, content: string)

  /** `HttpResponseMessage.IsSuccessStatusCode`: a status in the 2xx range. */
  predicate IsSuccessStatusCode(statusCode: int)
  {
    200 <= statusCode <= 299
  }

  /** What awaiting `HttpClient.PostAsync` yields: a response, or a raised exception. */
  datatype TransportOutcome = Responded(response: HttpResponse) | Raised(error: Exception)

  predicate IsSuccessResponse(outcome: TransportOutcome)
  {
    outcome.Responded? && IsSuccessStatusCode(outcome.response.statusCode)
  }

  datatype ViewResult<T> = ViewResult(
    success: bool,
    statusCode: int,
    message: Option<string>,
    rows: Option<seq<T>>,
    error: Option<string>)

  /** `new ViewResult<T>()`: every field at its default. */
  function NewViewResult<T>(): ViewResult<T>
  {
    ViewResult(false, 0, None, None, None)
  }

  const SuccessMessage: string := "Success"

  /**
   * The collaborators of ExecuteAsync: the data mapper with `ToViewResult`, and the two
   * `ProcessError` overloads, each returning the result object as it leaves it.
   */
  datatype ViewEnvironment<!T> = ViewEnvironment(
    mapResponse: string -> ViewResult<T>,
    processError: (Exception, ViewResult<T>) -> ViewResult<T>,
    processErrorInContext: (Exception, OperationContext, ViewResult<T>) -> ViewResult<T>)

  datatype OperationName = RequestEncoding | DispatchToServer | ResponseDecoding

  datatype TraceEvent =
    | SpanStarted(name: OperationName)
    | SpanFinished(name: OperationName)
    | Posted(uri: Uri, body: string)
    | ErrorProcessed(error: Exception, context: Option<OperationContext>)
    | ActivityUpdated

  /** `ProcessError` applied to each error in turn, threading the one result object. */
  function ProcessAll<T>(processError: (Exception, ViewResult<T>) -> ViewResult<T>,
                         errors: seq<Exception>, viewResult: ViewResult<T>): (r: ViewResult<T>)
    decreases |errors|
  {
    if errors == [] then viewResult
    else processError(errors[|errors| - 1], ProcessAll(processError, errors[..|errors| - 1], viewResult))
  }

  function ErrorEvents(errors: seq<Exception>): seq<TraceEvent>
  {
    seq(|errors|, i requires 0 <= i < |errors| => ErrorProcessed(errors[i], None))
  }

  /** The context given to `ProcessError` on cancellation. */
  function CancellationContext(query: ViewQuery, viewTimeout: Option<uint32>): OperationContext
  {
    var context := CreateViewContext(query.bucketName, query.rawUri.authority);
    if viewTimeout.Some? then context.(timeoutMicroseconds := viewTimeout) else context
  }

  /** The events of encoding the body and posting it, up to the end of the dispatch span. */
  function RequestTrace(query: ViewQuery): seq<TraceEvent>
  {
    [SpanStarted(RequestEncoding), SpanFinished(RequestEncoding),
     SpanStarted(DispatchToServer), Posted(query.rawUri, query.requestBody), SpanFinished(DispatchToServer)]
  }

  lemma RequestTraceContents(query: ViewQuery)
    ensures Spans(RequestTrace(query))
         == [SpanStarted(RequestEncoding), SpanFinished(RequestEncoding),
             SpanStarted(DispatchToServer), SpanFinished(DispatchToServer)]
    ensures ErrorsProcessed(RequestTrace(query)) == []
    ensures ActivityUpdated !in RequestTrace(query)
  {
    var r := RequestTrace(query);
    assert r[4..][1..] == [];
    assert r[3..][1..] == r[4..];
    assert r[2..][1..] == r[3..];
    assert r[1..][1..] == r[2..];
    assert Spans(r[4..]) == [SpanFinished(DispatchToServer)];
    assert Spans(r[3..]) == [SpanFinished(DispatchToServer)];
    assert Spans(r[2..]) == [SpanStarted(DispatchToServer), SpanFinished(DispatchToServer)];
    assert Spans(r[1..]) == [SpanFinished(RequestEncoding), SpanStarted(DispatchToServer), SpanFinished(DispatchToServer)];
    assert ErrorsProcessed(r[4..]) == [];
    assert ErrorsProcessed(r[3..]) == [];
    assert ErrorsProcessed(r[2..]) == [];
    assert ErrorsProcessed(r[1..]) == [];
  }

  /** The `ProcessError` calls of the catch clause that handles `e`. */
  function CatchTrace(query: ViewQuery, e: Exception, viewTimeout: Option<uint32>): seq<TraceEvent>
  {
    match e
    case AggregateException(_) => ErrorEvents(Flatten(e))
    case OperationCanceledException => [ErrorProcessed(e, Some(CancellationContext(query, viewTimeout)))]
    case HttpRequestException(_) => [ErrorProcessed(e, None)]
    case OtherException(_) => []
  }

  /** The events between the end of the dispatch span and UpdateLastActivity. */
  function HandlingTrace(query: ViewQuery, outcome: TransportOutcome, viewTimeout: Option<uint32>): seq<TraceEvent>
  {
    match outcome
    case Responded(response) =>
      if IsSuccessStatusCode(response.statusCode) then [SpanStarted(ResponseDecoding), SpanFinished(ResponseDecoding)]
      else []
    case Raised(e) => CatchTrace(query, e, viewTimeout)
  }

  /** The outcome raises an exception that no catch clause handles. */
  predicate Escapes(outcome: TransportOutcome)
  {
    outcome.Raised? && outcome.error.OtherException?
  }

  /** The events one ExecuteAsync call adds to the client's trace. */
  function ExecutionTrace(query: ViewQuery, outcome: TransportOutcome, viewTimeout: Option<uint32>): (r: seq<TraceEvent>)
  {
    RequestTrace(query) + HandlingTrace(query, outcome, viewTimeout)
    + (if Escapes(outcome) then [] else [ActivityUpdated])
  }

  /** What the catch clause that handles `e` leaves in the fresh result, or `e` itself if none does. */
  function CatchResult<T>(query: ViewQuery, e: Exception, env: ViewEnvironment<T>,
                          viewTimeout: Option<uint32>): Outcome<ViewResult<T>, Exception>
  {
    match e
    case AggregateException(_) => Returned(ProcessAll(env.processError, Flatten(e), NewViewResult()))
    case OperationCanceledException =>
      Returned(env.processErrorInContext(e, CancellationContext(query, viewTimeout), NewViewResult()))
    case HttpRequestException(_) => Returned(env.processError(e, NewViewResult()))
    case OtherException(_) => Threw(e)
  }

  /** What one ExecuteAsync call returns, or the exception that escapes it. */
  function ExecutionResult<T>(query: ViewQuery, outcome: TransportOutcome, env: ViewEnvironment<T>,
                              viewTimeout: Option<uint32>): (r: Outcome<ViewResult<T>, Exception>)
  {
    match outcome
    case Responded(response) =>
      if IsSuccessStatusCode(response.statusCode) then
        Returned(env.mapResponse(response.content).(success := true,
                                                    statusCode := response.statusCode,
                                                    message := Some(SuccessMessage)))
      else
        Returned(NewViewResult().(success := false,
                                  statusCode := response.statusCode,
                                  message := response.reasonPhrase))
    case Raised(e) => CatchResult(query, e, env, viewTimeout)
  }

  /** The span events of a trace, in order. */
  function Spans(trace: seq<TraceEvent>): seq<TraceEvent>
  {
    if trace == [] then []
    else if trace[0].SpanStarted? || trace[0].SpanFinished? then [trace[0]] + Spans(trace[1..])
    else Spans(trace[1..])
  }

  /** The errors handed to `ProcessError` in a trace, in order. */
  function ErrorsProcessed(trace: seq<TraceEvent>): seq<Exception>
  {
    if trace == [] then []
    else if trace[0].ErrorProcessed? then [trace[0].error] + ErrorsProcessed(trace[1..])
    else ErrorsProcessed(trace[1..])
  }

  lemma {:induction false} SpansConcat(a: seq<TraceEvent>, b: seq<TraceEvent>)
    ensures Spans(a + b) == Spans(a) + Spans(b)
  {
    if a == [] {
      assert a + b == b;
    } else {
      assert (a + b)[1..] == a[1..] + b;
      SpansConcat(a[1..], b);
    }
  }

  lemma {:induction false} ErrorsProcessedConcat(a: seq<TraceEvent>, b: seq<TraceEvent>)
    ensures ErrorsProcessed(a + b) == ErrorsProcessed(a) + ErrorsProcessed(b)
  {
    if a == [] {
      assert a + b == b;
    } else {
      assert (a + b)[1..] == a[1..] + b;
      ErrorsProcessedConcat(a[1..], b);
    }
  }

  lemma {:induction false} ErrorEventsContents(errors: seq<Exception>)
    ensures Spans(ErrorEvents(errors)) == []
    ensures ErrorsProcessed(ErrorEvents(errors)) == errors
    ensures ActivityUpdated !in ErrorEvents(errors)
  {
    if errors != [] {
      assert ErrorEvents(errors) == [ErrorProcessed(errors[0], None)] + ErrorEvents(errors[1..]);
      ErrorEventsContents(errors[1..]);
    }
  }

  lemma HandlingTraceContents(query: ViewQuery, outcome: TransportOutcome, viewTimeout: Option<uint32>)
    ensures Spans(HandlingTrace(query, outcome, viewTimeout))
         == if IsSuccessResponse(outcome) then [SpanStarted(ResponseDecoding), SpanFinished(ResponseDecoding)] else []
    ensures ErrorsProcessed(HandlingTrace(query, outcome, viewTimeout))
         == match outcome
            case Responded(_) => []
            case Raised(e) =>
              if e.AggregateException? then Flatten(e) else if e.OtherException? then [] else [e]
    ensures ActivityUpdated !in HandlingTrace(query, outcome, viewTimeout)
  {
    match outcome
    case Responded(response) =>
      var decoding := [SpanStarted(ResponseDecoding), SpanFinished(ResponseDecoding)];
      assert decoding[1..][1..] == [];
      assert Spans(decoding[1..]) == [SpanFinished(ResponseDecoding)];
      assert ErrorsProcessed(decoding[1..]) == [];
    case Raised(e) =>
      if e.AggregateException? {
        ErrorEventsContents(Flatten(e));
      }
  }

  /**
   * Exactly one span per phase, in the order RequestEncoding, DispatchToServer and, only
   * for a success status, ResponseDecoding; each span is finished before the next starts.
   */
  lemma SpansInPhaseOrder(query: ViewQuery, outcome: TransportOutcome, viewTimeout: Option<uint32>)
    ensures Spans(ExecutionTrace(query, outcome, viewTimeout))
         == [SpanStarted(RequestEncoding), SpanFinished(RequestEncoding),
             SpanStarted(DispatchToServer), SpanFinished(DispatchToServer)]
            + (if IsSuccessResponse(outcome)
               then [SpanStarted(ResponseDecoding), SpanFinished(ResponseDecoding)] else [])
  {
    var r := RequestTrace(query);
    var h := HandlingTrace(query, outcome, viewTimeout);
    var tail: seq<TraceEvent> := if Escapes(outcome) then [] else [ActivityUpdated];
    RequestTraceContents(query);
    HandlingTraceContents(query, outcome, viewTimeout);
    SpansConcat(r + h, tail);
    SpansConcat(r, h);
  }

  /** UpdateLastActivity runs once, as the last step, exactly when ExecuteAsync returns. */
  lemma ActivityUpdatedOnceOnReturn<T>(query: ViewQuery, outcome: TransportOutcome, env: ViewEnvironment<T>,
                                       viewTimeout: Option<uint32>)
    ensures var t := ExecutionTrace(query, outcome, viewTimeout);
            && Count(t, ActivityUpdated) == (if ExecutionResult(query, outcome, env, viewTimeout).Returned? then 1 else 0)
            && (ExecutionResult(query, outcome, env, viewTimeout).Returned? ==> t[|t| - 1] == ActivityUpdated)
  {
    var r := RequestTrace(query);
    var h := HandlingTrace(query, outcome, viewTimeout);
    var tail: seq<TraceEvent> := if Escapes(outcome) then [] else [ActivityUpdated];
    RequestTraceContents(query);
    HandlingTraceContents(query, outcome, viewTimeout);
    CountAbsent(r, ActivityUpdated);
    CountAbsent(h, ActivityUpdated);
    CountConcat(r + h, tail, ActivityUpdated);
    CountConcat(r, h, ActivityUpdated);
  }

  /** Which errors reach `ProcessError` on each path, and in which order. */
  lemma ErrorsProcessedPerPath(query: ViewQuery, outcome: TransportOutcome, viewTimeout: Option<uint32>)
    ensures var processed := ErrorsProcessed(ExecutionTrace(query, outcome, viewTimeout));
            match outcome
            case Responded(_) => processed == []
            case Raised(e) =>
              if e.AggregateException? then processed == Flatten(e)
              else if e.OtherException? then processed == []
              else processed == [e]
  {
    var r := RequestTrace(query);
    var h := HandlingTrace(query, outcome, viewTimeout);
    var tail: seq<TraceEvent> := if Escapes(outcome) then [] else [ActivityUpdated];
    RequestTraceContents(query);
    HandlingTraceContents(query, outcome, viewTimeout);
    ErrorsProcessedConcat(r + h, tail);
    ErrorsProcessedConcat(r, h);
  }

  /** A success status: the decoded result, marked successful, with the response's status. */
  lemma SuccessResult<T>(query: ViewQuery, response: HttpResponse, env: ViewEnvironment<T>, viewTimeout: Option<uint32>)
    requires IsSuccessStatusCode(response.statusCode)
    ensures var r := ExecutionResult(query, Responded(response), env, viewTimeout);
            var decoded := env.mapResponse(response.content);
            && r.Returned?
            && r.value.success
            && r.value.statusCode == response.statusCode
            && r.value.message == Some(SuccessMessage)
            && r.value.rows == decoded.rows
            && r.value.error == decoded.error
  {
  }

  /** Any other status: a fresh failed result carrying the status and reason phrase, nothing decoded. */
  lemma NonSuccessResult<T>(query: ViewQuery, response: HttpResponse, env: ViewEnvironment<T>, viewTimeout: Option<uint32>)
    requires !IsSuccessStatusCode(response.statusCode)
    ensures ExecutionResult(query, Responded(response), env, viewTimeout)
         == Returned(ViewResult(false, response.statusCode, response.reasonPhrase, None, None))
    ensures SpanStarted(ResponseDecoding) !in ExecutionTrace(query, Responded(response), viewTimeout)
  {
  }

  /** Cancellation: one `ProcessError` call with the view context of the query's bucket and endpoint. */
  lemma CancellationResult<T>(query: ViewQuery, env: ViewEnvironment<T>, timeout: uint32)
    ensures ExecutionResult(query, Raised(OperationCanceledException), env, Some(timeout))
         == Returned(env.processErrorInContext(OperationCanceledException,
                                               ViewContext(query.bucketName, query.rawUri.authority, Some(timeout)),
                                               NewViewResult()))
  {
  }

  /** An aggregate: `ProcessError` on each flattened inner error in turn, on one result object. */
  lemma AggregateResult<T>(query: ViewQuery, e: Exception, env: ViewEnvironment<T>, viewTimeout: Option<uint32>)
    requires e.AggregateException?
    ensures ExecutionResult(query, Raised(e), env, viewTimeout)
         == Returned(ProcessAll(env.processError, Flatten(e), NewViewResult()))
  {
  }

  /** An aggregate that wraps one transport error ends up exactly as the bare transport error. */
  lemma AggregateOfOneTransportError<T>(query: ViewQuery, e: Exception, env: ViewEnvironment<T>,
                                        viewTimeout: Option<uint32>)
    requires e.HttpRequestException?
    ensures ExecutionResult(query, Raised(AggregateException([e])), env, viewTimeout)
         == ExecutionResult(query, Raised(e), env, viewTimeout)
  {
    FlattenOfFlatAggregate(AggregateException([e]));
    assert [e][..0] == [];
    assert ProcessAll(env.processError, [e], NewViewResult()) == env.processError(e, NewViewResult());
  }

  /** Any other exception escapes ExecuteAsync after the dispatch span, unhandled. */
  lemma OtherExceptionEscapes<T>(query: ViewQuery, e: Exception, env: ViewEnvironment<T>, viewTimeout: Option<uint32>)
    requires e.OtherException?
    ensures ExecutionResult(query, Raised(e), env, viewTimeout) == Threw(e)
    ensures ExecutionTrace(query, Raised(e), viewTimeout) == RequestTrace(query)
  {
  }

  /**
   * The `Handle` loop over the flattened inner exceptions: the callback hands each error to
   * `ProcessError` with the same result object and reports it handled.
   */
  method HandleFlattened<T>(errors: seq<Exception>, viewResult: ViewResult<T>,
                            processError: (Exception, ViewResult<T>) -> ViewResult<T>)
    returns (r: ViewResult<T>, events: seq<TraceEvent>)
    ensures r == ProcessAll(processError, errors, viewResult)
    ensures events == ErrorEvents(errors)
  {
    r, events := viewResult, [];
    for i := 0 to |errors|
      invariant r == ProcessAll(processError, errors[..i], viewResult)
      invariant events == ErrorEvents(errors[..i])
    {
      assert errors[..i + 1][..i] == errors[..i];
      r := processError(errors[i], r);
      events := events + [ErrorProcessed(errors[i], None)];
    }
    assert errors[..|errors|] == errors;
  }

  class ViewClient {
    /** `_viewTimeout`, in microseconds. */
    const viewTimeout: Option<uint32>
    /** The spans, posts, `ProcessError` calls and activity updates, in the order they happened. */
    ghost var trace: seq<TraceEvent>

    constructor (viewRequestTimeout: int32)
      ensures viewTimeout == Some(MillisToMicros(viewRequestTimeout))
      ensures trace == []
    {
      viewTimeout := Some(ToUInt32(ToUInt32(viewRequestTimeout as int) as int * 1000));
      trace := [];
    }

    method UpdateLastActivity()
      modifies this`trace
      ensures trace == old(trace) + [ActivityUpdated]
    {
      trace := trace + [ActivityUpdated];
    }

    /** The RequestEncoding span around `CreateRequestBody`. */
    method EncodeRequest(query: ViewQuery) returns (body: string)
      modifies this`trace
      ensures body == query.requestBody
      ensures trace == old(trace) + [SpanStarted(RequestEncoding), SpanFinished(RequestEncoding)]
    {
      trace := trace + [SpanStarted(RequestEncoding)];
      body := query.requestBody;
      trace := trace + [SpanFinished(RequestEncoding)];
    }

    /** The DispatchToServer span around the POST of the body; the span closes whatever the POST yields. */
    method DispatchToServerSpan(uri: Uri, body: string)
      modifies this`trace
      ensures trace == old(trace) + [SpanStarted(DispatchToServer), Posted(uri, body), SpanFinished(DispatchToServer)]
    {
      trace := trace + [SpanStarted(DispatchToServer)];
      trace := trace + [Posted(uri, body)];
      trace := trace + [SpanFinished(DispatchToServer)];
    }

    /** The two status branches of the try block. */
    method ReadResponse<T>(query: ViewQuery, response: HttpResponse, env: ViewEnvironment<T>)
      returns (viewResult: ViewResult<T>)
      modifies this`trace
      ensures Returned(viewResult) == ExecutionResult(query, Responded(response), env, viewTimeout)
      ensures trace == old(trace) + HandlingTrace(query, Responded(response), viewTimeout)
    {
      if IsSuccessStatusCode(response.statusCode) {
        trace := trace + [SpanStarted(ResponseDecoding)];
        viewResult := env.mapResponse(response.content);
        viewResult := viewResult.(success := IsSuccessStatusCode(response.statusCode));
        viewResult := viewResult.(statusCode := response.statusCode);
        viewResult := viewResult.(message := Some(SuccessMessage));
        trace := trace + [SpanFinished(ResponseDecoding)];
      } else {
        viewResult := NewViewResult().(success := false,
                                       statusCode := response.statusCode,
                                       message := response.reasonPhrase);
      }
    }

    /** The three catch clauses; any other exception propagates. */
    method CatchException<T>(query: ViewQuery, e: Exception, env: ViewEnvironment<T>, viewResult: ViewResult<T>)
      returns (r: Outcome<ViewResult<T>, Exception>)
      requires viewResult == NewViewResult()
      modifies this`trace
      ensures r == CatchResult(query, e, env, viewTimeout)
      ensures trace == old(trace) + CatchTrace(query, e, viewTimeout)
    {
      match e {
        case AggregateException(_) =>
          var result, handled := HandleFlattened(Flatten(e), viewResult, env.processError);
          trace := trace + handled;
          r := Returned(result);
        case OperationCanceledException =>
          var operationContext := CreateViewContext(query.bucketName, query.rawUri.authority);
          if viewTimeout.Some? {
            operationContext := operationContext.(timeoutMicroseconds := Some(viewTimeout.value));
          }
          trace := trace + [ErrorProcessed(e, Some(operationContext))];
          r := Returned(env.processErrorInContext(e, operationContext, viewResult));
        case HttpRequestException(_) =>
          trace := trace + [ErrorProcessed(e, None)];
          r := Returned(env.processError(e, viewResult));
        case OtherException(_) =>
          r := Threw(e);
      }
    }

    method ExecuteAsync<T>(query: ViewQuery, outcome: TransportOutcome, env: ViewEnvironment<T>)
      returns (r: Outcome<ViewResult<T>, Exception>)
      modifies this`trace
      ensures r == ExecutionResult(query, outcome, env, viewTimeout)
      ensures trace == old(trace) + ExecutionTrace(query, outcome, viewTimeout)
    {
      ghost var before := trace;
      var uri := query.rawUri;
      var viewResult: ViewResult<T> := NewViewResult();
      var body := EncodeRequest(query);
      DispatchToServerSpan(uri, body);
      assert trace == before + RequestTrace(query);
      match outcome {
        case Responded(response) =>
          viewResult := ReadResponse(query, response, env);
        case Raised(e) =>
          r := CatchException(query, e, env, viewResult);
          if r.Threw? {
            return;
          }
          viewResult := r.value;
      }
      UpdateLastActivity();
      r := Returned(viewResult);
    }
  }

  /**
   * For a client built by the constructor the timeout is always present, so the
   * cancellation context always carries it.
   */
  lemma CancellationRecordsTimeout(query: ViewQuery, viewRequestTimeout: int32)
    ensures var timeout := Some(MillisToMicros(viewRequestTimeout));
            (ExecutionTrace(query, Raised(OperationCanceledException), timeout)
             == RequestTrace(query)
                + [ErrorProcessed(OperationCanceledException,
                                  Some(ViewContext(query.bucketName, query.rawUri.authority, timeout))),
                   ActivityUpdated])
  {
  }
}
