# Memcached bucket and view client of the Couchbase .NET client, in Dafny

This project models two pieces of the client-side access layer of the Couchbase .NET SDK.

- **`MemcachedBucket`** (module `Buckets`, `memcached_bucket.dfy`). An in-memory bucket handle holds three things: the latest cluster configuration snapshot, a disposed flag and its name. `NotifyConfigChanged` replaces the snapshot whole. `Insert` and `Get` route a key through the current snapshot (`GetKeyMapper(Name).MapKey(key).LocatePrimary()`) to one server. They send that server one `SetOperation` or `GetOperation` and return what the server's `Send` produces. The asynchronous, view and N1QL members always throw `NotImplementedException`. `Dispose()` and the finalizer share `Dispose(bool)`. Only the first effective call tells the cluster manager `DestroyBucket(this)`, and only the public path calls `GC.SuppressFinalize`. The bucket is a class with `name`, `config` and `disposed` fields. Its ghost `events` log records every `DestroyBucket`, `SuppressFinalize` and sent operation. The invariant `Valid()` says the manager has been told exactly once if the bucket is disposed, and never otherwise. Pure transition functions (`AfterDispose`, `AfterDisposals`) describe disposal, and lemmas over arbitrary sequences of disposal calls are proved about them.
- **`ViewClient`** (module `Views`, `view_client.dfy`). The constructor converts `ViewRequestTimeout` from milliseconds to microseconds. It does so in C#'s unchecked `uint` arithmetic: the cast reinterprets the bits, and the product wraps modulo 2^32. `ExecuteAsync` takes the outcome of the HTTP round trip as an input value. That value is either a response and its status, or a raised exception: an aggregate, a cancellation, an `HttpRequestException`, or any other exception. From it, `ExecuteAsync` builds the `ViewResult` and appends to the client's ghost `trace`. The trace records the spans it opens and closes, the POST of the encoded body, each `ProcessError` call and the `UpdateLastActivity` call. The method is proved against the specification functions `ExecutionResult` and `ExecutionTrace`, and the lemmas state the properties of those functions.
- **.NET exception shapes** (module `Exceptions`, `exceptions.dfy`). This module holds the exception kinds and `AggregateException.Flatten`, which `ExecuteAsync` applies before `Handle`. Flattening is breadth-first, as in .NET. It is proved to leave no aggregate and to keep exactly the leaves of the exception tree, as a multiset. Its level-by-level order, which fixes the order of the `ProcessError` calls, is shown on a two-level tree where it differs from depth-first order.
- `common.dfy` (module `Common`) holds `Option` (null), `Outcome` (a returned value or a thrown exception) and occurrence counting.

The collaborators are values the model does not interpret:
- the key-mapper chain (functions held in `ConfigInfo`, `KeyMapper` and `MappedKey`);
- a server's `Send` (a function parameter of `Insert` and `Get`);
- the data mapper with `ToViewResult`, and the two `ProcessError` overloads (the fields of `ViewEnvironment`).

Behaviour of the code worth knowing:
- `Insert` and `Get` do not classify failures themselves. They return whatever the server's `Send` returns.
- `Insert` and `Get` throw a `NullReferenceException` whenever the held configuration is null. It is null at first, and again after `NotifyConfigChanged(null)`.
- The unsupported members throw. They do not return a typed result.
- Disposal uses one boolean, and its check-then-set is not atomic.
- The key is not checked to be non-empty.
- `Name` has a public setter, so later keys can be routed under a different bucket name.

## Model

| member | source | states |
|---|---|---|
| `Buckets.MemcachedBucket.constructor` | Src/Couchbase/Core/Buckets/MemcachedBucket.cs:20-24 | A fresh bucket has `Name` equal to the given name, no configuration (null), is not disposed and has issued no `DestroyBucket` call or any other event; the invariant holds |
| `Buckets.MemcachedBucket.SetName` | Src/Couchbase/Core/Buckets/MemcachedBucket.cs:29 | The `Name` setter: afterwards the name is the given one; configuration, disposed flag and event log are unchanged |
| `Buckets.MemcachedBucket.NotifyConfigChanged` | Src/Couchbase/Core/Buckets/MemcachedBucket.cs:35-38 | Afterwards the held configuration is exactly the given one, null included, whatever it was before (the last call wins); name, disposed flag and event log are unchanged |
| `Buckets.MemcachedBucket.Insert` | Src/Couchbase/Core/Buckets/MemcachedBucket.cs:47-56 | With a configuration: the server is `LocateServer(config, name, key)`, one Set send for `key` to that server is recorded, and the result is `send`'s result for `SetOperation(key, value)` on that server, unchanged; while the configuration is null: `NullReferenceException`, nothing sent; config and disposed flag untouched and not consulted |
| `Buckets.MemcachedBucket.Get` | Src/Couchbase/Core/Buckets/MemcachedBucket.cs:64-73 | The same resolution chain as `Insert`, so the same server for the same config, name and key; one Get send for `key` to that server is recorded, and the result is `send`'s result for `GetOperation(key)`, unchanged; `NullReferenceException` while the configuration is null; config and disposed flag untouched |
| `Buckets.MemcachedBucket.GetAsync` | Src/Couchbase/Core/Buckets/MemcachedBucket.cs:75-78 | Always throws `NotImplementedException` with the "only supported on Couchbase Bucket (persistent) types" message; reads no field, sends nothing |
| `Buckets.MemcachedBucket.InsertAsync` | Src/Couchbase/Core/Buckets/MemcachedBucket.cs:80-83 | Always throws the same `NotImplementedException`; reads no field, sends nothing |
| `Buckets.MemcachedBucket.GetView` | Src/Couchbase/Core/Buckets/MemcachedBucket.cs:85-88 | The view overload of `Get` always throws the same `NotImplementedException`; reads no field |
| `Buckets.MemcachedBucket.Query` | Src/Couchbase/Core/Buckets/MemcachedBucket.cs:90-93 | The N1QL `Query` always throws the same `NotImplementedException`; reads no field |
| `Buckets.MemcachedBucket.CreateQuery` | Src/Couchbase/Core/Buckets/MemcachedBucket.cs:95-98 | `CreateQuery(development)` always throws the same `NotImplementedException` |
| `Buckets.MemcachedBucket.CreateDesignDocQuery` | Src/Couchbase/Core/Buckets/MemcachedBucket.cs:100-103 | `CreateQuery(designdoc, development)` always throws the same `NotImplementedException` |
| `Buckets.MemcachedBucket.CreateViewQuery` | Src/Couchbase/Core/Buckets/MemcachedBucket.cs:105-108 | `CreateQuery(designdoc, view, development)` always throws the same `NotImplementedException` |
| `Buckets.MemcachedBucket.Dispose` | Src/Couchbase/Core/Buckets/MemcachedBucket.cs:114-117 | The public path is `Dispose(true)`: the new state is `AfterDispose(old state, true)` and the exactly-once invariant is kept |
| `Buckets.MemcachedBucket.DisposeCore` | Src/Couchbase/Core/Buckets/MemcachedBucket.cs:124-135 | If not yet disposed: records `DestroyBucket`, then `SuppressFinalize` only when `disposing`, then sets the flag; otherwise changes nothing; name and config never change |
| `Buckets.MemcachedBucket.Finalize` | Src/Couchbase/Core/Buckets/MemcachedBucket.cs:140-143 | The finalizer is `Dispose(false)`: notifies the manager if no disposal happened before, never suppresses finalization |
| `Buckets.DisposalSequence` | Src/Couchbase/Core/Buckets/MemcachedBucket.cs:124-135 | Over any sequence of `Dispose()`/finalizer calls, exactly the first one on an undisposed bucket appends `DestroyBucket` (and `SuppressFinalize` iff it was the public call); the bucket ends disposed iff it was or some call happened; name and config unchanged |
| `Buckets.DestroyBucketExactlyOnce` | Src/Couchbase/Core/Buckets/MemcachedBucket.cs:124-135 | From a never-disposed bucket, any non-empty run of disposals leaves it disposed with exactly one `DestroyBucket`, and one more `SuppressFinalize` exactly when the first call was the public one |
| `Buckets.DisposalsOfDisposed` | Src/Couchbase/Core/Buckets/MemcachedBucket.cs:126-134 | Once disposed, any further disposals change nothing |
| `Buckets.DisposePreservesWellFormed` | Src/Couchbase/Core/Buckets/MemcachedBucket.cs:126-133 | A disposal keeps "the manager was told once iff disposed" |
| `Views.MillisToMicrosIsProductModulo` | Src/Couchbase/Views/ViewClient.cs:20 | The stored timeout is `ms * 1000` reduced modulo 2^32 for every `int` timeout, negative ones included (the `(uint)` cast and the `uint` product) |
| `Views.MillisToMicrosExactIff` | Src/Couchbase/Views/ViewClient.cs:20 | The conversion equals the true product iff 0 <= ms <= 4294967 |
| `Views.MillisToMicrosExamples` | Src/Couchbase/Views/ViewClient.cs:20 | 2500 ms becomes 2,500,000 µs; 4294968 ms wraps to 704; -1 ms becomes 4,294,966,296 |
| `Views.ViewClient.constructor` | Src/Couchbase/Views/ViewClient.cs:17-21 | The stored `uint?` timeout is always present and equals `MillisToMicros(ViewRequestTimeout)`; the trace starts empty |
| `Views.ViewClient.ExecuteAsync` | Src/Couchbase/Views/ViewClient.cs:29-102 | Returns `ExecutionResult(...)` and appends exactly `ExecutionTrace(...)` to the trace, for every transport outcome |
| `Views.ViewClient.EncodeRequest` | Src/Couchbase/Views/ViewClient.cs:34-38 | The body is the query's request body, built inside one RequestEncoding span |
| `Views.ViewClient.DispatchToServerSpan` | Src/Couchbase/Views/ViewClient.cs:46-50 | The POST of that body to the raw URI happens inside one DispatchToServer span, which is closed whatever the POST yields |
| `Views.ViewClient.ReadResponse` | Src/Couchbase/Views/ViewClient.cs:52-71 | The two status branches produce the result `ExecutionResult` gives for that response; only the success branch opens and closes a ResponseDecoding span |
| `Views.ViewClient.CatchException` | Src/Couchbase/Views/ViewClient.cs:73-97 | The three catch clauses produce `CatchResult` and record `CatchTrace`; any other exception is rethrown with nothing recorded |
| `Views.ViewClient.UpdateLastActivity` | Src/Couchbase/Views/ViewClient.cs:99 | Records one activity update |
| `Views.HandleFlattened` | Src/Couchbase/Views/ViewClient.cs:75-80 | The `Handle` callback loop: `ProcessError` on each error in turn, threading the one result object (`ProcessAll`), one recorded `ProcessError` call per error, in order |
| `Views.SpansInPhaseOrder` | Src/Couchbase/Views/ViewClient.cs:35-54 | The spans of one call are exactly RequestEncoding then DispatchToServer, each closed before the next opens, followed by ResponseDecoding iff the response status is a success |
| `Views.ActivityUpdatedOnceOnReturn` | Src/Couchbase/Views/ViewClient.cs:99-101 | `UpdateLastActivity` runs exactly once, as the last recorded step, on every path that returns (both status branches, all three caught kinds), and never when an uncaught exception escapes |
| `Views.ErrorsProcessedPerPath` | Src/Couchbase/Views/ViewClient.cs:73-97 | No `ProcessError` call on a response; the flattened inner errors in order for an aggregate; exactly the one error for a cancellation or an `HttpRequestException`; none when the exception escapes |
| `Views.SuccessResult` | Src/Couchbase/Views/ViewClient.cs:52-61 | On a 2xx status the result is returned with `Success = true`, the response's status, `Message = "Success"`, and rows and error taken from the decoded data |
| `Views.NonSuccessResult` | Src/Couchbase/Views/ViewClient.cs:63-71 | On any other status the result is a fresh one with `Success = false`, the response status and the reason phrase as message; no ResponseDecoding span, nothing decoded |
| `Views.CancellationResult` | Src/Couchbase/Views/ViewClient.cs:82-91 | On cancellation the result is `ProcessError` applied to a fresh result with the view context of the query's bucket, the URI authority and the stored timeout |
| `Views.CancellationRecordsTimeout` | Src/Couchbase/Views/ViewClient.cs:85-88 | For a constructed client the `HasValue` test always passes, so the one recorded `ProcessError` call on cancellation carries the microsecond timeout |
| `Views.AggregateResult` | Src/Couchbase/Views/ViewClient.cs:73-81 | On an aggregate the result is `ProcessError` applied to each flattened inner error in turn, all on the same result object |
| `Views.AggregateOfOneTransportError` | Src/Couchbase/Views/ViewClient.cs:73-97 | An aggregate wrapping a single `HttpRequestException` yields the same result as the bare `HttpRequestException` |
| `Views.OtherExceptionEscapes` | Src/Couchbase/Views/ViewClient.cs:40-97 | An exception of no caught kind escapes after the dispatch span; nothing is processed and no activity is recorded |
| `Exceptions.Flatten` | Src/Couchbase/Views/ViewClient.cs:75 | `Flatten()` leaves no aggregate and keeps exactly the leaves of the exception tree, as a multiset |
| `Exceptions.FlattenIsBreadthFirst` | Src/Couchbase/Views/ViewClient.cs:75 | For the tree `[[a], b, [[c], d]]` of non-aggregates, `Flatten()` yields `[b, a, d, c]` (level by level), while the depth-first leaves are `[a, b, c, d]`; this order is the order of the `ProcessError` calls |
| `Exceptions.TwoLevelTreeLeaves` | Src/Couchbase/Views/ViewClient.cs:75 | The depth-first leaves of that tree, the reference order that flattening departs from |
| `Exceptions.TwoLevelTreeFirstLevel` | Src/Couchbase/Views/ViewClient.cs:75 | The first level of flattening that tree emits `b` and passes on `[a, [c], d]` |
| `Exceptions.TwoLevelTreeSecondLevel` | Src/Couchbase/Views/ViewClient.cs:75 | The second level emits `a` and `d` and passes on `[c]` |
| `Exceptions.FlattenOfFlatAggregate` | Src/Couchbase/Views/ViewClient.cs:75 | An aggregate holding no aggregate flattens to its own inner exceptions, in order |

## Left out

- Concurrency. `Interlocked.Exchange` and `volatile` are modelled as plain sequential assignment. The check-then-set in `Dispose(bool)` is not atomic, so "exactly once" is claimed only for sequential calls.
- Asynchrony. async/await and `ContinueOnAnyContext` are left out. `GetAsync` and `InsertAsync` throw before any task exists, so they are modelled as returning the exception directly.
- HTTP I/O. The HTTP transport, `StringContent` and UTF-8 encoding are I/O. Awaiting the POST is the input value `TransportOutcome`, and the POST itself is a recorded `Posted` event.
- Exceptions from other steps. The model does not raise exceptions from `CreateRequestBody`, from reading or decoding the response stream, or from `ProcessError` itself. Decoding is total.
- `ProcessError`, `DataMapper.Map`/`ViewResultData.ToViewResult` and `JsonDataMapper` are functions the model does not interpret. They are defined in files that are not part of this model, and `JsonDataMapper.Map` only forwards to the serializer. So nothing is claimed about which fields the error paths fill in.
- `OperationContext.CreateViewContext` and `OperationContext.ToString` are not part of this model. The context is a record of bucket name, endpoint and an optional timeout, and it is handed to `ProcessError` as a value, not rendered as a string.
- `ViewResult<T>`'s constructor is not part of this model. A fresh result has C#'s default field values (false, 0, null).
- `ViewClientBase` is not part of this model. Its `Success` message constant is taken to be "Success". `UpdateLastActivity` is reduced to a recorded event, without a clock.
- The uri is taken to be non-null. `Log.Debug` at line 42 dereferences it before any use of `uri?.Authority`.
- `IsSuccessStatusCode` is .NET's 2xx test.
- Breadth-first order for `AggregateException.Flatten` follows .NET's implementation, which is not part of this model.
- The tracing backend, logging (`Log.Debug`, `Log.Error`) and finalizer scheduling are left out. `GC.SuppressFinalize` is a recorded event.
- The key-mapping algorithm and a server's `Send` are abstract. Null returns from `GetKeyMapper`, `MapKey` or `LocatePrimary` are not modelled; only the null configuration is.
- `send` and the key-mapper chain are total functions. The model does not raise an exception from `IServer.Send`, `GetKeyMapper`, `MapKey` or `LocatePrimary`, although in C# one would propagate out of `Insert` or `Get` unchanged.
- The cluster manager is represented only by the recorded `DestroyBucket` event, and the logger field is left out.
