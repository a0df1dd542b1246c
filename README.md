# jsonapi, modelled in Dafny

This is a model of the core of `mnavarrocarter/jsonapi`. The library is a Go adapter that turns an ordinary function into an HTTP handler that speaks JSON. The function is introspected once, when it is wrapped. Its results are then sorted into a value and an error according to their shape. On each request the handler does four things in order:

1. It validates the request.
2. It resolves each parameter from the request, position by position.
3. It calls the function inside a deferred `recover`.
4. It sends the value or the error as JSON.

The repository holds two generations of the package side by side, and their declarations clash. Each generation is modelled in its own modules, and the two are not merged.

- **Generation A**, the `apiError`/`Coder` one: `handler.go`, `errors.go`, `response.go`, `static_handlers.go`, `mux_var.go`, `schema.go`. Modules `HandlerA`, `ErrorsA`, `ResponseA`, `StaticHandlersA`, `MuxVarA`, `SchemaA`.
- **Generation B**, the `ApiError`/`Defaults` one: `jsonapi.go`, `defaults.go`, `gmux/gmux.go`, `gmux/handlers.go`, `jsonschema/jsonschema.go`. Modules `JsonApi`, `Defaults`, `Gmux`, `GmuxHandlers`, `JsonSchema`.
- **Shared**:
  - `Function` models `function.go`, the signature descriptor, generic over the dynamic-value type.
  - `Reflect` models Go types with `Implements` and `AssignableTo`.
  - `Http` holds the request and body as classes, and a `Recorder` that records the header, status and body writes in order.
  - `GoJsonSchema` is the result shape of the schema library.
  - `Fmt` provides `%d`.
  - `Wrappers` holds `Option`.

The model takes the form of the source:

- `JsonHandler.ServeHTTP` is a method on a class whose fields are the handler's exported fields. It runs the resolution loop and records each write on the recorder. It closes the body it was given on every way out.
- The schema validators replace `req.Body` in place and close the original body.
- The options overwrite the handler's fields in place.
- `Wrap` applies its options in a loop.
- `CastError` overwrites a local record step by step.

Each method is proved against a specification function, for example `HandlerA.Expected` and `Defaults.CastSpec`. The properties of the source are proved as lemmas about those functions.

Where the specification and the code disagree, the model follows the code:

- **SkipPanic.** The recover runs before the flag is tested. So with `SkipPanic` set, a panic in the function is swallowed, not propagated.
- **Validator errors in Generation A.** The handler maps them itself: `ErrEmptyBody` becomes a 400 and any other error a 500. They are not cast.
- **Order of the cast rules.** The `if`s in `CastError` let the later match win, so an error wrapping both `ErrUnexpected` and `ErrEmptyBody` is a 400.
- **ApiError pass-through.** Casting an already-built `ApiError` does not return it unchanged (see Findings).

## Model

| member | source | states |
|---|---|---|
| Function.ReflectFunc | function.go:11-61 | the parameter-copying loop and the switch on the result count yield exactly Reflection(t, body) |
| Function.Reflection | function.go:11-61 | a descriptor exactly for a supported shape; a non-function panics with "function expected"; two results whose second is not an error, or more than two, panic with the exact messages; otherwise the parameter list is `t.In(0..)` in order, the behaviour is the function's, and the unpack strategy has the arity of the results, error-only exactly when a single result implements error |
| Function.OutFn | function.go:29-58 | no results give (nil, nil); one error result gives (nil, err-or-nil); one other result gives (value, nil); two give (first, second if it is an error, nil otherwise); the error part is always nil or an error |
| Function.AsError | function.go:37-38 | `out.(error)` yields the value when it is an error and nil otherwise |
| Function.Call | function.go:69-73 | a call panics exactly when the reflected call of the function does, with its payload; otherwise (value, error) is OutFn of the function's own results: a value-only function returns its result and no error, an error-only function no value and its result if that is an error, a two-result function its first result and its second if that is an error |
| ErrorsA.Errorf | mux_var.go:42-46 | `%w` wrapping unwraps to the target and prefixes its message |
| ErrorsA.IsFollowsUnwrap | errors.go:21-24 | errors.Is is exactly membership in the chain Unwrap walks |
| ErrorsA.SentinelsDistinct | errors.go:11-13 | each sentinel matches only itself |
| ErrorsA.PanicToError | errors.go:49-64 | always a 500 with "An unexpected error has occurred"; its cause is the payload when it is an error, and otherwise a new error whose text is the string or its %v rendering |
| ErrorsA.PanicKeepsChain | errors.go:53-54 | anything errors.Is finds in an error payload it still finds through the recovered apiError |
| ErrorsA.ApiErrorAccessors | errors.go:37-47 | Error() is msg, Code() is code, Unwrap() is prev |
| ResponseA.Derive | response.go:18-49 | nil and only nil is a 204; errors and findings become an errorResponse whose status field equals the status written; any other value is encoded as itself |
| ResponseA.SendTrace | response.go:19-53 | a send is the bare 204, or exactly header, status, body |
| ResponseA.SendResponse | response.go:18-54 | writes exactly SendTrace(v) to the response, in order |
| ResponseA.HandleError | errors.go:15-19 | the error reaches SendResponse unchanged |
| ResponseA.NilIsNoContent | response.go:19-22 | nil writes only status 204: no Content-Type, no body |
| ResponseA.ErrorReply | response.go:27-36 | an error is a 500 unless it implements Coder; its body is {status, details: Error()} with no findings |
| ResponseA.FindingsReply | response.go:37-43 | findings are a 400 "Validation errors" carrying the items unchanged |
| ResponseA.SuccessReply | response.go:44-49 | any other value is a 200 unless it implements Coder, and is encoded as itself |
| ResponseA.OneStatusPerSend | response.go:51-53 | every send writes exactly one status line |
| ResponseA.ErrorBodyStatusAgrees | response.go:33-43 | in every trace, an encoded error body's status field equals the status line written |
| SchemaA.Findings | schema.go:63-73 | one ErrorItem per library error, same order, with field, value and description |
| SchemaA.CollectFindings | schema.go:63-71 | the append loop builds exactly Findings(errs) |
| SchemaA.Validate | schema.go:33-74 | the result is ValidateSpec of the body as it was; the original body is closed; after a read the body is a fresh buffer holding exactly the bytes read; after a failed read the body is untouched |
| SchemaA.ReadFailure | schema.go:38-41 | an unreadable body gives (nil, ErrUnexpected) |
| SchemaA.LibraryOutcome | schema.go:50-73 | EOF gives ErrEmptyBody, any other failure ErrUnexpected, a valid document (nil, nil), an invalid one exactly Findings(errs), item by item with field, value and description in order, and no error |
| SchemaA.FindingsOnlyWithoutError | schema.go:50-73 | findings never come with an error |
| MuxVarA.InjectVar | mux_var.go:38-49 | never panics; fails only with an error wrapping ErrArgumentResolution; succeeds exactly when the key is present and a string fits the declared type, with the route string as value |
| MuxVarA.Resolve | mux_var.go:33-50 | a chain of varInjectors answers from the resolver it wraps at every position none of them owns; at an owned position it never panics, fails only with ErrArgumentResolution and resolves only to a route string |
| MuxVarA.DelegatesOtherPositions | mux_var.go:34-36 | other positions go to `next` with the same arguments and its answer comes back unchanged |
| MuxVarA.DefaultVarFuncAlwaysFails | mux_var.go:9-11 | with the default VarFunc every owned position fails with ErrArgumentResolution |
| MuxVarA.OwnedPosition | mux_var.go:38-49 | the exact error for a missing key and for a type that cannot hold a string; otherwise the route string |
| Reflect.StringAssignableTo | mux_var.go:45-47 | a string is assignable only to `string` or to an interface with no methods |
| HandlerA.CallsUpTo | handler.go:57-58 | the calls Resolve(req, in[j], j) for j below n, in order |
| HandlerA.ResolveFrom | handler.go:57-78 | a failure is at the first position that does not resolve, and every earlier one resolved; when all resolve, the values are the resolver's answers in order |
| HandlerA.ResolveFailure | handler.go:59-75 | a resolution failure becomes an apiError caused by it, 400 exactly when it is ErrEmptyBody and 500 otherwise |
| HandlerA.InvokeTrace | handler.go:80-95 | nothing is written exactly when fn panics and the panic is nil or SkipPanic is set; a normal return always writes a response |
| HandlerA.Proceed | handler.go:54-95 | fn is called exactly when every position resolved; a panic escapes exactly when a resolver panicked, and then nothing was written; Resolve is called at least once unless fn has no parameters, and never more than once per parameter |
| HandlerA.ValidatorStage | handler.go:28-52 | no validator lets the request through; a stop makes no Resolve call and calls nothing; a validator panic writes nothing; any other stop writes one full response |
| HandlerA.Expected | handler.go:23-96 | a validator stop makes no Resolve call and does not call fn; fn is called only when the validator let the request through and every position resolved |
| HandlerA.FirstFailureAt | handler.go:57-75 | when positions 0..i-1 resolve and i does not, resolution stops at i |
| HandlerA.AllPositionsResolved | handler.go:57-78 | when every position resolves, the arguments are exactly the resolved values |
| HandlerA.JsonHandler.ServeHTTP | handler.go:23-96 | the body the request arrived with is closed on every way out; the writes, Resolve calls, arguments and escaping panic are those of Expected for the configuration and the request as it arrived |
| HandlerA.JsonHandler.Pipeline | handler.go:28-95 | writes, calls, arguments and ending follow Expected; the body is the original or a fresh buffer |
| HandlerA.JsonHandler.RunValidator | handler.go:28-52 | the stage's outcome is ValidatorStage; when it lets the request through, nothing is written and the request looks as it did |
| HandlerA.JsonHandler.ResolveAll | handler.go:55-78 | the loop's outcome is ResolveFrom and its calls are positions 0 up to the failure, or all |
| HandlerA.JsonHandler.Invoke | handler.go:80-95 | writes InvokeTrace: HandleError(panicToError) for a contained non-nil panic, nothing when SkipPanic swallows it, the error or the value otherwise |
| HandlerA.WithVar | mux_var.go:13-21 | the current resolver becomes `next` of a varInjector owning `pos`; nothing else changes |
| HandlerA.WithSchema | schema.go:10-25 | nil changes nothing; a read error panics with it and installs nothing; otherwise the schema validator is installed with the bytes read |
| HandlerA.AtMostOneStatus | handler.go:23-96 | every request writes at most one status line; a panic that escapes wrote nothing and came before fn was called |
| HandlerA.FunctionSeesResolvedArguments | handler.go:54-87 | fn is called iff the validator let the request through and every position resolved; then it gets exactly the resolved values, one per parameter, in order, after one Resolve per position |
| HandlerA.ResolveCallsInOrder | handler.go:57-75 | Resolve is called as (in[j], j) for j = 0.. in order; all but the last call resolved; when fn is not called the last call is the one that failed |
| HandlerA.ResolveFailureKeepsCause | handler.go:59-75 | the failure is the cause of the apiError sent, so errors.Is still finds it; the code is 400 for ErrEmptyBody and 500 otherwise |
| HandlerA.ResolverFailureResponse | handler.go:59-75 | a resolver failure sends a 400 "Request body cannot be empty" or a 500 "Error while trying to resolve handler arguments", after calls 0..k, and fn is not called |
| HandlerA.ValidatorStops | handler.go:29-52 | ErrEmptyBody is a 400 without cause; any other error is a 500 even with findings; findings alone are a 400 carrying them; none of these resolves or calls anything; no findings and no error is as if there were no validator |
| HandlerA.PanicContained | handler.go:80-85 | a panic in fn never escapes; without SkipPanic it is a 500 "An unexpected error has occurred"; with SkipPanic nothing is written |
| HandlerA.ReturnedResultSent | handler.go:87-94 | after a normal return a non-nil error is sent unchanged (its Coder status or 500, its message as details); otherwise the value is sent; a function with no results is a bare 204 |
| HandlerA.LaterVarWins | mux_var.go:13-36 | a later WithVar for the same position shadows an earlier one; one for another position leaves it in force |
| StaticHandlersA.NotFoundError | static_handlers.go:8-13 | code 404, no cause, message "No handler found for METHOD PATH" |
| StaticHandlersA.MethodNotAllowedError | static_handlers.go:15-20 | code 405, no cause, message "Method not allowed for METHOD PATH" |
| StaticHandlersA.NotFoundHandler | static_handlers.go:8-13 | the 404 apiError goes to HandleError |
| StaticHandlersA.MethodNotAllowedHandler | static_handlers.go:15-20 | the 405 apiError goes to HandleError |
| StaticHandlersA.NotFoundReply | static_handlers.go:8-13 | the reply is 404 with body {status: 404, details: "No handler found for …"} and no other key |
| StaticHandlersA.MethodNotAllowedReply | static_handlers.go:15-20 | the reply is 405 with body {status: 405, details: "Method not allowed for …"} and no other key |
| JsonApi.Errorf | defaults.go:31-56 | `%w` wrapping unwraps to the target and prefixes its message |
| Fmt.Decimal | defaults.go:31-38 | `%d` of a position: a non-empty string of decimal digits, without a leading zero, that denotes exactly n |
| JsonApi.JsonKeys | jsonapi.go:66-73 | status, kind and details come first; `errors` and `meta` appear exactly when non-empty |
| JsonApi.SourceNeverSerialized | jsonapi.go:66-73 | the JSON object does not depend on sourceErr and has at most five keys |
| JsonApi.ApiErrorAccessors | jsonapi.go:75-85 | Error() is Details, Unwrap() is sourceErr, Status() is StatusCode |
| JsonApi.SentinelsDistinct | jsonapi.go:9-12 | the four sentinels are distinct values with distinct texts |
| JsonApi.WrappedSentinel | jsonapi.go:9-12 | a `%w` wrapping of one sentinel matches that sentinel and no other |
| JsonApi.IsFollowsUnwrap | jsonapi.go:79-81 | errors.Is is membership in the Unwrap chain, which for an ApiError continues through sourceErr |
| JsonApi.JsonHandler.Apply | jsonapi.go:31-33 | one option changes the handler's fields to what it returns, or panics and changes nothing |
| JsonApi.Configure | jsonapi.go:31-33 | no options leave the configuration as Wrap built it; a panic can come only from an option |
| JsonApi.Then | jsonapi.go:31-33 | after a panic no further option changes the outcome; no further options change nothing |
| JsonApi.Wrap | jsonapi.go:21-36 | a function shape reflectFunc rejects panics at construction with Reflection's message; otherwise the handler holds exactly Reflection's descriptor (behaviour, parameter types, unpack strategy) and the configuration that Defaults followed by the options in argument order produce; an option that panics makes Wrap panic with its payload |
| JsonApi.ConfigureAppend | jsonapi.go:31-33 | applying a + b is applying a, then b |
| JsonApi.AppliedPrefixes | jsonapi.go:31-33 | when the options as a whole apply, every prefix of them applied: no option panicked along the way |
| JsonApi.PanicStopsOptions | jsonapi.go:31-33 | once an option panics, no later option runs |
| Defaults.IsStructWithJson | defaults.go:162-179 | true exactly for a struct, or a pointer to one, with a field tagged `json` |
| Defaults.Resolve | defaults.go:26-64 | a context type always gets the request's context and never panics; a type that is neither a context nor a JSON struct always fails with an ErrArgumentUnsupported wrapping and no value, and only such a type does; failures are otherwise ErrArgumentResolution wrappings or exactly ErrEmptyBody; a resolved value is of a type assignable to the parameter, except the zero Value a pointer parameter gets from a `null` body; a `null` body for a struct parameter, and only that, panics on `Elem` |
| Defaults.DecodeOutcomes | defaults.go:48-63 | decode EOF is exactly ErrEmptyBody, a decode error wraps ErrArgumentResolution with its text, `null` is the zero Value without error for a pointer and a panic for a struct, a decoded value comes back with the declared type, pointer or not |
| Defaults.ContextInjection | defaults.go:27-35 | the context resolves exactly when its concrete type is assignable; otherwise the error wraps ErrArgumentResolution |
| Defaults.Validate | defaults.go:66-68 | never any finding, never an error |
| Defaults.CastSpec | defaults.go:70-126 | every cast is an ApiError |
| Defaults.CastError | defaults.go:70-126 | the sequential overwrites give exactly CastSpec, the rules in order of precedence |
| Defaults.SentinelPrecedence | defaults.go:92-112 | a resolution error wins over empty-body and keeps no cause; empty-body alone is a 400 "Invalid Request" without cause; without empty-body the error itself is the cause |
| Defaults.ReportedStatusKept | defaults.go:77-79 | a reported status survives for a plain error and any other value; a domain error is always 400 |
| Defaults.DomainAndFindings | defaults.go:84-91 | a domain error is a 400 "Domain Error" with the inner message, caused by it only under LogDomainErrors; findings are a 400 carrying the items in order |
| Defaults.CastRewrapsApiError | defaults.go:92-120 | as written, the gmux 404 ApiError is cast to a 404 "Unknown" wrapping it, not passed through |
| Defaults.CastFixed | defaults.go:119-120 | corrected: an ApiError passes through unchanged; every other value is cast as CastError does |
| Defaults.CastFixedIdempotent | defaults.go:119-120 | corrected: casting a cast error gives it back |
| Defaults.LogLine | defaults.go:128-138 | an ApiError logs its sourceErr's text, or nothing without one; any other error logs its text; nil logs nothing |
| Defaults.LogError | defaults.go:128-138 | appends exactly LogLine(err) to the log |
| Defaults.CastLogging | defaults.go:101-106 | casts of empty-body errors and of findings log nothing; a string payload logs the string |
| Defaults.SendTrace | defaults.go:140-160 | nil is 204 alone; anything else is Content-Type then the reported status or 200, then the body exactly when encoding succeeds; always one status line |
| Defaults.SendResponse | defaults.go:140-160 | writes exactly SendTrace; panics with the encoder's error exactly when encoding a non-nil value fails |
| Defaults.CastStatusOnTheWire | defaults.go:148-150 | every cast error is sent with its own StatusCode on the status line |
| Gmux.InjectVar | gmux/gmux.go:40-51 | fails only with ErrUnexpected wrappings; succeeds exactly when the key is present and a string fits, with the route string |
| Gmux.Resolve | gmux/gmux.go:35-52 | a chain of VarInjectors answers from the resolver it wraps (Defaults or the user's) at every position none of them owns; at an owned position it never panics, fails only with ErrUnexpected and resolves only to a route string |
| Gmux.NewVarInjector | gmux/gmux.go:17-23 | an injector holding next, key and pos |
| Gmux.WithVar | gmux/gmux.go:11-15 | for every configuration the option applies without panicking, replaces the resolver with an injector wrapping the current one for key and pos, and changes nothing else |
| Gmux.WithVarWrapsCurrent | gmux/gmux.go:11-15 | WithVar never panics and changes only the resolver, whose `next` is the previous resolver |
| Gmux.DelegatesOtherPositions | gmux/gmux.go:36-38 | other positions go to `next` unchanged |
| Gmux.OwnedPosition | gmux/gmux.go:42-51 | the exact ErrUnexpected wrappings for a missing key and an unassignable type, never ErrArgumentResolution; otherwise the route string |
| Gmux.MissingVarCast | gmux/gmux.go:42-45 | Defaults casts a missing route variable to a 500 "Unexpected error while handling the request" |
| Gmux.LaterWithVarOutermost | gmux/gmux.go:11-15 | two WithVar options leave the later injector outermost |
| GmuxHandlers.NotFoundError | gmux/handlers.go:8-17 | 404, "Not Found", "Handler not found for request", Meta with exactly method and path, no findings, no cause |
| GmuxHandlers.MethodNotAllowedError | gmux/handlers.go:22-32 | 405, "Method Not Allowed", "Method not allowed for request", Meta with exactly method and path |
| GmuxHandlers.NotFoundHandler | gmux/handlers.go:8-20 | sends the 404 ApiError through Defaults.SendResponse; panics with the encoder's error exactly when encoding it fails |
| GmuxHandlers.MethodNotAllowedHandler | gmux/handlers.go:22-35 | sends the 405 ApiError through Defaults.SendResponse; panics with the encoder's error exactly when encoding it fails |
| GmuxHandlers.StaticReplies | gmux/handlers.go:8-35 | the status line is 404/405, the ApiError reporting it; the JSON keys are status, kind, details, meta |
| JsonSchema.NewJsonSchemaValidator | jsonschema/jsonschema.go:28-30 | a schema validator holding the loader |
| JsonSchema.WithSchema | jsonschema/jsonschema.go:11-26 | the option panics exactly when the reader fails, with the read error; otherwise it changes only the validator: not at all for nil, to the schema validator of the bytes read otherwise |
| JsonSchema.WithSchemaEffect | jsonschema/jsonschema.go:11-26 | nil is a no-op; a read error panics; otherwise only the validator changes, to the schema validator |
| JsonSchema.Findings | jsonschema/jsonschema.go:68-78 | one ErrorItem per library error, same order |
| JsonSchema.CollectFindings | jsonschema/jsonschema.go:68-76 | the append loop builds exactly Findings(errs) |
| JsonSchema.Validate | jsonschema/jsonschema.go:38-79 | the result is ValidateSpec of the body as it was; the original body is closed; after a read the body is a fresh buffer with exactly the bytes read; after a failed read it is untouched |
| JsonSchema.ContractErrors | jsonschema/jsonschema.go:43-62 | errors are only ErrUnexpected or ErrEmptyBody, never with findings; an unreadable body is ErrUnexpected; EOF is ErrEmptyBody |
| JsonSchema.VerdictOutcome | jsonschema/jsonschema.go:64-78 | a valid document gives (nil, nil); an invalid one exactly Findings(errs), each item with the library error's field, value and description, in order |

## Left out

- Reflection is reduced to a type datatype. `Implements` is method-set inclusion and `AssignableTo` is identity or interface satisfaction. Package qualifiers in `%v` type names are not modelled, and `Reflect.TypeString` prints a function type or an unnamed struct type by its name rather than as `func(...)` or `struct { ... }`. This affects error-message text only.
- `encoding/json` is not interpreted. Decoding is a `Decoder` parameter and encoding an `Encoder` parameter. No JSON round trip is claimed. Generation A's encode error is ignored, as in the source.
- gojsonschema is not interpreted. It is a function from (schema, document) to EOF, another failure, or a verdict with its ordered errors.
- `log.Println` is a `Log` class that records lines. `mux.Vars` is the request's route-variable map. `http.ResponseWriter` is the `Recorder` trace.
- Defaults.Resolve: the body read by the JSON decoder is not consumed in the model. A second decoded parameter would see an empty stream in Go.
- ErrorsA.Render: a findings slice renders as the fixed text "[...]", because %v of pointers prints addresses.
- HandlerA.JsonHandler.Invoke: `panic(nil)` is treated as Go before 1.21 treats it: `recover()` returns nil and nothing is written. Go 1.21 recovers a `*runtime.PanicNilError` instead.
- Generation A's `HandleError` and `SendResponse` are package variables a program may replace. The model fixes them at their defaults.
- A panic raised while sending a response is not modelled.
- `StatusReporter` and `domainError` are used by `defaults.go` but declared in no file here. `*ApiError` is taken to report its `StatusCode`. Domain errors and user values carry their own optional status. A domain error's inner error and text are opaque, and it wraps nothing.
- The Generation B handler that calls `CastError`, `LogError` and the sender is not part of this model. So the Generation B components are modelled only on their own, plus `Wrap`.
- `resolver.go`, `validator.go` and `_examples/main.go` are declarations and a demo, and are not part of this model.
- HandlerA.WithSchema, JsonSchema.WithSchema: Go reads the `io.Reader` each time the option runs, so the same option applied a second time reads an exhausted reader and installs an empty schema. The model gives the same bytes on every application.
- Function.Call: the behaviour `fn` stands for reflect's `Call` of the function as a whole. `reflect.Value.Call` panics on its own, before the function runs, when an argument is the zero Value or is not assignable to its parameter type. The zero Value `Defaults.Resolve` returns for a `null` body on a pointer parameter is such an argument. These panics are not derived from the parameter types; the model leaves them to `fn`.
- Function.Reflection: `Wrap(nil)` is not modelled. In Go `reflect.TypeOf(nil)` is nil and `t.Kind()` at function.go:13 panics with a nil dereference, not with "function expected". The type model has no nil type.
- ErrorsA.Is, JsonApi.Is: `errors.Is` is modelled on single-error chains only. A user type's own `Is(error) bool` method and `Unwrap() []error` (`errors.Join`, several `%w`) are not represented, so an error that matches a sentinel only through them cannot be expressed.
- Generation A has no `ErrUnexpected` of its own: `schema.go` uses the one `jsonapi.go:9` declares. The `ErrorsA` sentinels include it with that text.
- Concurrency across requests is not modelled. The handler's configuration is only read while serving.

## Findings

| source | as written | input that shows it | evidently intended | confidence | as-written member | corrected member |
|---|---|---|---|---|---|---|
| defaults.go:92-120 | `case error` precedes `case *ApiError` in CastError's type switch, and `*ApiError` implements `error`, so the pass-through `return t` is unreachable | casting gmux's 404 ApiError{404, "Not Found", …} yields ApiError{404, "Unknown", "Request failed with unknown error", sourceErr: the original} | an ApiError is returned unchanged, so casting is idempotent | high; not executed | Defaults.CastRewrapsApiError | Defaults.CastFixedIdempotent |
