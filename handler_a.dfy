/** handler.go: JsonHandler.ServeHTTP, one request through the pipeline.
    The body is closed on every way out. If a validator is set it runs first
    and may stop the request; then each declared parameter is resolved in
    order and the first failure stops the request; then the function is
    called under a recover that was registered only after resolution; then
    its error or its value is sent.

    Besides the response trace, a run reports what an observer of the
    components would see: the Resolve calls made, the arguments the function
    was called with, and whether a panic escaped ServeHTTP.

    The options of mux_var.go and schema.go, which replace the resolver and
    the validator in place, are here too because they act on JsonHandler. */
module HandlerA {
  import opened Wrappers
  import opened Reflect
  import opened Http
  import opened Function
  import opened GoJsonSchema
  import opened ErrorsA
  import opened ResponseA
  import opened SchemaA
  import opened MuxVarA

  /** What a validator does with one request: return (findings, error), or panic. */
  datatype ValidatorOutcome = Validated(v: Validation) | ValidatorPanicked(p: Value)

  /** A request validator: the schema validator of schema.go, or any other
      validator given by its answer for a request (it leaves the request alone). */
  datatype Validator =
    | SchemaValidator(loader: seq<byte>)
    | CustomValidator(answer: RequestView -> ValidatorOutcome)

  /** The package-level collaborators: the VarFunc hook and the schema library. */
  datatype Env = Env(varFunc: VarSource, engine: Engine)

  /** How ServeHTTP ended: normally, or with a panic that was not recovered. */
  datatype Termination = Completed | Propagated(payload: Value)

  /** One Resolve call: the declared type and the position. */
  type ResolveCall = (GoType, nat)

  /** Everything a request produces. `invoked` holds the arguments fn was called with. */
  datatype Run = Run(
    writes: seq<Event<Payload>>,
    resolveCalls: seq<ResolveCall>,
    invoked: Option<seq<Value>>,
    end: Termination)

  /** The handler's configuration: the wrapped function and the three exported fields. */
  datatype Settings = Settings(
    fn: ReflectedFn<Value>,
    validator: Option<Validator>,
    resolver: Resolver,
    skipPanic: bool)

  function ValidatorResult(v: Validator, req: RequestView, env: Env): ValidatorOutcome {
    match v
    case SchemaValidator(loader) => Validated(ValidateSpec(loader, req.body, req.readable, env.engine))
    case CustomValidator(answer) => answer(req)
  }

  /** The calls Resolve(req, ins[j], j) for j = 0 .. n-1, in that order. */
  function CallsUpTo(ins: seq<GoType>, n: nat): (c: seq<ResolveCall>)
    requires n <= |ins|
    ensures |c| == n && forall j :: 0 <= j < n ==> c[j] == (ins[j], j)
  {
    if n == 0 then [] else CallsUpTo(ins, n - 1) + [(ins[n - 1], n - 1)]
  }

  /** The outcome of resolving positions i.. in order, stopping at the first failure. */
  datatype Resolution = AllResolved(args: seq<Value>) | FailedAt(k: nat, e: Error) | PanickedAt(k: nat, p: Value)

  function ResolveFrom(r: Resolver, env: Env, req: RequestView, ins: seq<GoType>, i: nat): (res: Resolution)
    requires i <= |ins|
    decreases |ins| - i
    ensures res.AllResolved? ==>
      |res.args| == |ins| - i &&
      forall j :: i <= j < |ins| ==> Resolve(r, env.varFunc, req, ins[j], j) == Resolved(res.args[j - i])
    ensures !res.AllResolved? ==>
      i <= res.k < |ins| &&
      forall j :: i <= j < res.k ==> Resolve(r, env.varFunc, req, ins[j], j).Resolved?
    ensures res.FailedAt? ==> Resolve(r, env.varFunc, req, ins[res.k], res.k) == ResolveFailed(res.e)
    ensures res.PanickedAt? ==> Resolve(r, env.varFunc, req, ins[res.k], res.k) == ResolverPanicked(res.p)
  {
    if i == |ins| then AllResolved([])
    else
      match Resolve(r, env.varFunc, req, ins[i], i)
      case ResolveFailed(e) => FailedAt(i, e)
      case ResolverPanicked(p) => PanickedAt(i, p)
      case Resolved(v) =>
        match ResolveFrom(r, env, req, ins, i + 1)
        case AllResolved(rest) => AllResolved([v] + rest)
        case other => other
  }

  /** The apiError a resolution failure becomes (handler.go:59-75). */
  function ResolveFailure(e: Error): (r: Error)
    ensures r.ApiError? && r.prev == Some(e)
    ensures r.code == 400 <==> Is(e, SentinelError(EmptyBody))
    ensures r.code == 400 || r.code == 500
  {
    if Is(e, SentinelError(EmptyBody)) then ApiError(400, "Request body cannot be empty", Some(e))
    else ApiError(500, "Error while trying to resolve handler arguments", Some(e))
  }

  /** What the guarded call writes (handler.go:80-95). */
  function InvokeTrace(fn: ReflectedFn<Value>, skipPanic: bool, args: seq<Value>): (t: seq<Event<Payload>>)
    requires Conforms(fn.fn, Arity(fn.unpack))
    ensures t == [] <==> fn.fn(args).Panicked? && (fn.fn(args).payload == Nil || skipPanic)
    ensures fn.fn(args).Returned? ==> t != []
  {
    match Call(fn, args, Nil, IsErrorValue)
    case CallPanicked(p) =>
      if p != Nil && !skipPanic then SendTrace(ErrorValue(PanicToError(p))) else []
    case Normal(out, err) =>
      if err != Nil then SendTrace(err) else SendTrace(out)
  }

  /** The Resolve calls a resolution makes: up to and including the failing position. */
  function CallsMade(res: Resolution, ins: seq<GoType>): seq<ResolveCall>
    requires !res.AllResolved? ==> res.k < |ins|
  {
    if res.AllResolved? then CallsUpTo(ins, |ins|) else CallsUpTo(ins, res.k + 1)
  }

  /** Resolution, invocation and sending (handler.go:54-95). */
  function Proceed(h: Settings, req: RequestView, env: Env): (run: Run)
    requires Conforms(h.fn.fn, Arity(h.fn.unpack))
    ensures run.invoked.Some? <==> ResolveFrom(h.resolver, env, req, h.fn.ins, 0).AllResolved?
    ensures run.end.Propagated? <==> ResolveFrom(h.resolver, env, req, h.fn.ins, 0).PanickedAt?
    ensures run.end.Propagated? ==> run.writes == []
    ensures 0 < |run.resolveCalls| <= |h.fn.ins| || (h.fn.ins == [] && run.resolveCalls == [])
  {
    var res := ResolveFrom(h.resolver, env, req, h.fn.ins, 0);
    var calls := CallsMade(res, h.fn.ins);
    match res
    case FailedAt(_, e) => Run(SendTrace(ErrorValue(ResolveFailure(e))), calls, None, Completed)
    case PanickedAt(_, p) => Run([], calls, None, Propagated(p))
    case AllResolved(args) => Run(InvokeTrace(h.fn, h.skipPanic, args), calls, Some(args), Completed)
  }

  /** The validation stage (handler.go:28-52): None lets the request through,
      Some(run) is how the request ends there. */
  function ValidatorStage(validator: Option<Validator>, req: RequestView, env: Env): (stop: Option<Run>)
    ensures validator.None? ==> stop.None?
    ensures stop.Some? ==> stop.value.resolveCalls == [] && stop.value.invoked.None?
    ensures stop.Some? && stop.value.end.Propagated? ==> stop.value.writes == []
    ensures stop.Some? && stop.value.end.Completed? ==> |stop.value.writes| == 3
  {
    if validator.None? then None
    else
      match ValidatorResult(validator.value, req, env)
      case ValidatorPanicked(p) => Some(Run([], [], None, Propagated(p)))
      case Validated(Validation(items, err)) =>
        if IsOpt(err, SentinelError(EmptyBody)) then
          Some(Run(SendTrace(ErrorValue(ApiError(400, "Request body cannot be empty", None))), [], None, Completed))
        else if err.Some? then
          Some(Run(SendTrace(ErrorValue(ApiError(500, "There was an error while validating the request", err))), [], None, Completed))
        else if |items| != 0 then
          Some(Run(SendTrace(Findings(items)), [], None, Completed))
        else None
  }

  /** What ServeHTTP does with a request (handler.go:23-96). */
  function Expected(h: Settings, req: RequestView, env: Env): (run: Run)
    requires Conforms(h.fn.fn, Arity(h.fn.unpack))
    ensures ValidatorStage(h.validator, req, env).Some? ==> run.resolveCalls == [] && run.invoked.None?
    ensures run.invoked.Some? ==>
      ValidatorStage(h.validator, req, env).None? && ResolveFrom(h.resolver, env, req, h.fn.ins, 0).AllResolved?
  {
    var stage := ValidatorStage(h.validator, req, env);
    if stage.Some? then stage.value else Proceed(h, req, env)
  }

  class JsonHandler {
    const fn: ReflectedFn<Value>
    var validator: Option<Validator>
    var resolver: Resolver
    var skipPanic: bool

    constructor (fn: ReflectedFn<Value>, validator: Option<Validator>, resolver: Resolver, skipPanic: bool)
      ensures Config() == Settings(fn, validator, resolver, skipPanic)
    {
      this.fn := fn;
      this.validator := validator;
      this.resolver := resolver;
      this.skipPanic := skipPanic;
    }

    function Config(): Settings
      reads this
    {
      Settings(fn, validator, resolver, skipPanic)
    }

    /** ServeHTTP (handler.go:23-96): the deferred Close of the body the request
        arrived with runs after the pipeline, whichever way it ended. */
    method ServeHTTP(w: Recorder<Payload>, req: Request, env: Env)
      returns (calls: seq<ResolveCall>, invoked: Option<seq<Value>>, end: Termination)
      requires Conforms(fn.fn, Arity(fn.unpack))
      modifies w, req, req.body
      ensures old(req.body).closed
      ensures var run := Expected(Config(), old(View(req)), env);
        w.events == old(w.events) + run.writes && calls == run.resolveCalls &&
        invoked == run.invoked && end == run.end
    {
      var original := req.body;
      calls, invoked, end := Pipeline(w, req, env);
      original.Close();
    }

    /** The body of ServeHTTP between its two defers. */
    method Pipeline(w: Recorder<Payload>, req: Request, env: Env)
      returns (calls: seq<ResolveCall>, invoked: Option<seq<Value>>, end: Termination)
      requires Conforms(fn.fn, Arity(fn.unpack))
      modifies w, req, req.body
      ensures req.body == old(req.body) || fresh(req.body)
      ensures var run := Expected(Config(), old(View(req)), env);
        w.events == old(w.events) + run.writes && calls == run.resolveCalls &&
        invoked == run.invoked && end == run.end
    {
      ghost var view0 := View(req);
      var stop := RunValidator(w, req, env);
      if stop.Some? {
        return stop.value.resolveCalls, stop.value.invoked, stop.value.end;
      }
      var view := View(req);
      var res;
      res, calls := ResolveAll(view, env);
      match res {
        case PanickedAt(_, p) =>
          return calls, None, Propagated(p);
        case FailedAt(_, e) =>
          if Is(e, SentinelError(EmptyBody)) {
            HandleError(w, ApiError(400, "Request body cannot be empty", Some(e)));
          } else {
            HandleError(w, ApiError(500, "Error while trying to resolve handler arguments", Some(e)));
          }
          return calls, None, Completed;
        case AllResolved(args) =>
          Invoke(w, args);
          return calls, Some(args), Completed;
      }
    }

    /** handler.go:28-52. A validator that lets the request through leaves it
        as it found it: the schema validator puts back a body with the same bytes. */
    method RunValidator(w: Recorder<Payload>, req: Request, env: Env) returns (stop: Option<Run>)
      modifies w, req, req.body
      ensures stop == ValidatorStage(validator, old(View(req)), env)
      ensures stop.Some? ==> w.events == old(w.events) + stop.value.writes
      ensures stop.None? ==> w.events == old(w.events) && View(req) == old(View(req))
      ensures req.body == old(req.body) || fresh(req.body)
    {
      if validator.None? {
        return None;
      }
      var outcome: ValidatorOutcome;
      match validator.value {
        case SchemaValidator(loader) =>
          var v := SchemaA.Validate(req, loader, env.engine);
          outcome := Validated(v);
        case CustomValidator(answer) =>
          outcome := answer(View(req));
      }
      if outcome.ValidatorPanicked? {
        return Some(Run([], [], None, Propagated(outcome.p)));
      }
      var items, err := outcome.v.items, outcome.v.err;
      if IsOpt(err, SentinelError(EmptyBody)) {
        HandleError(w, ApiError(400, "Request body cannot be empty", None));
        stop := Some(Run(SendTrace(ErrorValue(ApiError(400, "Request body cannot be empty", None))), [], None, Completed));
      } else if err.Some? {
        HandleError(w, ApiError(500, "There was an error while validating the request", err));
        stop := Some(Run(SendTrace(ErrorValue(ApiError(500, "There was an error while validating the request", err))), [], None, Completed));
      } else if |items| != 0 {
        SendResponse(w, Findings(items));
        stop := Some(Run(SendTrace(Findings(items)), [], None, Completed));
      } else {
        stop := None;
      }
    }

    /** handler.go:54-76: resolve every parameter in declaration order, stopping at the first failure. */
    method ResolveAll(view: RequestView, env: Env) returns (res: Resolution, calls: seq<ResolveCall>)
      ensures res == ResolveFrom(resolver, env, view, fn.ins, 0)
      ensures calls == CallsMade(res, fn.ins)
    {
      var args: seq<Value> := [];
      calls := [];
      var i := 0;
      while i < |fn.ins|
        invariant 0 <= i <= |fn.ins|
        invariant calls == CallsUpTo(fn.ins, i)
        invariant |args| == i
        invariant forall j :: 0 <= j < i ==> Resolve(resolver, env.varFunc, view, fn.ins[j], j) == Resolved(args[j])
      {
        var r := Resolve(resolver, env.varFunc, view, fn.ins[i], i);
        calls := calls + [(fn.ins[i], i)];
        if !r.Resolved? {
          FirstFailureAt(resolver, env, view, fn.ins, i);
          res := if r.ResolveFailed? then FailedAt(i, r.e) else PanickedAt(i, r.p);
          return;
        }
        args := args + [r.v];
        i := i + 1;
      }
      AllPositionsResolved(resolver, env, view, fn.ins, args);
      res := AllResolved(args);
    }

    /** handler.go:78-95: the call, with the recover registered around it, and the reply. */
    method Invoke(w: Recorder<Payload>, args: seq<Value>)
      requires Conforms(fn.fn, Arity(fn.unpack))
      modifies w
      ensures w.events == old(w.events) + InvokeTrace(fn, skipPanic, args)
    {
      var result := Call(fn, args, Nil, IsErrorValue);
      if result.CallPanicked? {
        if result.payload != Nil && !skipPanic {
          HandleError(w, PanicToError(result.payload));
        }
      } else if result.err != Nil {
        HandleError(w, result.err.e);
      } else {
        SendResponse(w, result.value);
      }
    }
  }

  /** When positions 0..i-1 resolved and position i did not, resolution stops at i. */
  lemma {:induction false} FirstFailureAt(r: Resolver, env: Env, req: RequestView, ins: seq<GoType>, i: nat)
    requires i < |ins|
    requires forall j :: 0 <= j < i ==> Resolve(r, env.varFunc, req, ins[j], j).Resolved?
    requires !Resolve(r, env.varFunc, req, ins[i], i).Resolved?
    ensures var res := ResolveFrom(r, env, req, ins, 0);
      !res.AllResolved? && res.k == i
  {
  }

  /** When every position resolved, resolution yields exactly those values. */
  lemma AllPositionsResolved(r: Resolver, env: Env, req: RequestView, ins: seq<GoType>, args: seq<Value>)
    requires |args| == |ins|
    requires forall j :: 0 <= j < |ins| ==> Resolve(r, env.varFunc, req, ins[j], j) == Resolved(args[j])
    ensures ResolveFrom(r, env, req, ins, 0) == AllResolved(args)
  {
  }

  /** WithVar (mux_var.go:13-21): the current resolver becomes `next` of a
      varInjector that owns position `pos`. */
  method WithVar(h: JsonHandler, key: string, pos: int)
    modifies h
    ensures h.resolver == VarInjector(old(h.resolver), key, pos)
    ensures h.validator == old(h.validator) && h.skipPanic == old(h.skipPanic)
  {
    h.resolver := VarInjector(h.resolver, key, pos);
  }

  /** WithSchema (schema.go:10-25). The schema is read once, here; a read
      error is the option's panic, returned as `panicked`. */
  method WithSchema(h: JsonHandler, schema: Option<SchemaReader>) returns (panicked: Option<Value>)
    modifies h
    ensures schema.None? ==> panicked.None? && h.validator == old(h.validator)
    ensures schema.Some? && schema.value.failure.Some? ==>
      panicked == Some(ErrorValue(schema.value.failure.value)) && h.validator == old(h.validator)
    ensures schema.Some? && schema.value.failure.None? ==>
      panicked.None? && h.validator == Some(SchemaValidator(schema.value.content))
    ensures h.resolver == old(h.resolver) && h.skipPanic == old(h.skipPanic)
  {
    if schema.None? {
      return None;
    }
    if schema.value.failure.Some? {
      return Some(ErrorValue(schema.value.failure.value));
    }
    h.validator := Some(SchemaValidator(schema.value.content));
    return None;
  }

  /** Every request writes at most one status line, and a panic that escapes
      ServeHTTP escapes before anything was written and before fn was called. */
  lemma AtMostOneStatus(h: Settings, req: RequestView, env: Env)
    requires Conforms(h.fn.fn, Arity(h.fn.unpack))
    ensures StatusCount(Expected(h, req, env).writes) <= 1
    ensures Expected(h, req, env).end.Propagated? ==>
      Expected(h, req, env).writes == [] && Expected(h, req, env).invoked.None?
  {
    var stage := ValidatorStage(h.validator, req, env);
    if stage.Some? {
      match ValidatorResult(h.validator.value, req, env)
      case ValidatorPanicked(_) =>
      case Validated(Validation(items, err)) =>
        if IsOpt(err, SentinelError(EmptyBody)) {
          OneStatusPerSend(ErrorValue(ApiError(400, "Request body cannot be empty", None)));
        } else if err.Some? {
          OneStatusPerSend(ErrorValue(ApiError(500, "There was an error while validating the request", err)));
        } else {
          OneStatusPerSend(Findings(items));
        }
    } else {
      match ResolveFrom(h.resolver, env, req, h.fn.ins, 0)
      case FailedAt(_, e) => OneStatusPerSend(ErrorValue(ResolveFailure(e)));
      case PanickedAt(_, _) =>
      case AllResolved(args) =>
        match Call(h.fn, args, Nil, IsErrorValue)
        case CallPanicked(p) => OneStatusPerSend(ErrorValue(PanicToError(p)));
        case Normal(out, err) => OneStatusPerSend(if err != Nil then err else out);
    }
  }

  /** fn is called only after the validator let the request through and every
      position resolved; it then receives exactly the resolved values, in
      declaration order, after one Resolve(in[i], i) call per position. */
  lemma FunctionSeesResolvedArguments(h: Settings, req: RequestView, env: Env)
    requires Conforms(h.fn.fn, Arity(h.fn.unpack))
    ensures var run := Expected(h, req, env);
      run.invoked.Some? <==>
        ValidatorStage(h.validator, req, env).None? &&
        forall j :: 0 <= j < |h.fn.ins| ==> Resolve(h.resolver, env.varFunc, req, h.fn.ins[j], j).Resolved?
    ensures var run := Expected(h, req, env);
      run.invoked.Some? ==>
        |run.invoked.value| == |h.fn.ins| && run.resolveCalls == CallsUpTo(h.fn.ins, |h.fn.ins|) &&
        forall j :: 0 <= j < |h.fn.ins| ==>
          Resolve(h.resolver, env.varFunc, req, h.fn.ins[j], j) == Resolved(run.invoked.value[j])
  {
  }

  /** Resolution goes through the positions in order and stops at the first
      failure: the calls made are exactly positions 0..k, none is skipped. */
  lemma ResolveCallsInOrder(h: Settings, req: RequestView, env: Env)
    requires Conforms(h.fn.fn, Arity(h.fn.unpack))
    ensures var calls := Expected(h, req, env).resolveCalls;
      |calls| <= |h.fn.ins| && forall j :: 0 <= j < |calls| ==> calls[j] == (h.fn.ins[j], j)
    ensures var calls := Expected(h, req, env).resolveCalls;
      forall j :: 0 <= j < |calls| - 1 ==> Resolve(h.resolver, env.varFunc, req, h.fn.ins[j], j).Resolved?
    ensures var run := Expected(h, req, env);
      0 < |run.resolveCalls| && run.invoked.None? ==>
        !Resolve(h.resolver, env.varFunc, req, h.fn.ins[|run.resolveCalls| - 1], |run.resolveCalls| - 1).Resolved?
  {
  }

  /** A resolution failure keeps its cause: it is the Unwrap of the apiError
      sent, so errors.Is still sees through it; ErrEmptyBody gives 400, anything else 500. */
  lemma ResolveFailureKeepsCause(e: Error, target: Error)
    ensures Unwrap(ResolveFailure(e)) == Some(e)
    ensures Is(e, target) ==> Is(ResolveFailure(e), target)
    ensures Code(ResolveFailure(e)) == Some(if Is(e, SentinelError(EmptyBody)) then 400 else 500)
  {
  }

  /** A resolver failure is answered with the apiError of ResolveFailure, and fn is not called. */
  lemma ResolverFailureResponse(h: Settings, req: RequestView, env: Env, k: nat, e: Error)
    requires Conforms(h.fn.fn, Arity(h.fn.unpack))
    requires ValidatorStage(h.validator, req, env).None?
    requires k < |h.fn.ins|
    requires forall j :: 0 <= j < k ==> Resolve(h.resolver, env.varFunc, req, h.fn.ins[j], j).Resolved?
    requires Resolve(h.resolver, env.varFunc, req, h.fn.ins[k], k) == ResolveFailed(e)
    ensures var run := Expected(h, req, env);
      var s := if Is(e, SentinelError(EmptyBody)) then 400 else 500;
      var msg := if Is(e, SentinelError(EmptyBody)) then "Request body cannot be empty"
                 else "Error while trying to resolve handler arguments";
      run == Run([HeaderAdded("Content-Type", "application/json"), StatusWritten(s),
                  BodyEncoded(ErrorBody(ErrorResponse(s, msg, [])))],
                 CallsUpTo(h.fn.ins, k + 1), None, Completed)
  {
  }

  /** The validator's answer decides the response on its own, with no
      resolution and no call: an ErrEmptyBody is a 400 without cause, any
      other error a 500 (even when findings came with it), and findings alone
      are sent unchanged as a 400. */
  lemma ValidatorStops(h: Settings, req: RequestView, env: Env, items: seq<ErrorItem>, err: Option<Error>)
    requires Conforms(h.fn.fn, Arity(h.fn.unpack))
    requires h.validator.Some? && ValidatorResult(h.validator.value, req, env) == Validated(Validation(items, err))
    ensures var run := Expected(h, req, env);
      (err.Some? || |items| != 0) ==> run.resolveCalls == [] && run.invoked.None? && run.end == Completed
    ensures IsOpt(err, SentinelError(EmptyBody)) ==>
      Expected(h, req, env).writes ==
        [HeaderAdded("Content-Type", "application/json"), StatusWritten(400),
         BodyEncoded(ErrorBody(ErrorResponse(400, "Request body cannot be empty", [])))]
    ensures err.Some? && !IsOpt(err, SentinelError(EmptyBody)) ==>
      Expected(h, req, env).writes ==
        [HeaderAdded("Content-Type", "application/json"), StatusWritten(500),
         BodyEncoded(ErrorBody(ErrorResponse(500, "There was an error while validating the request", [])))]
    ensures err.None? && |items| != 0 ==>
      Expected(h, req, env).writes ==
        [HeaderAdded("Content-Type", "application/json"), StatusWritten(400),
         BodyEncoded(ErrorBody(ErrorResponse(400, "Validation errors", items)))]
    ensures err.None? && |items| == 0 ==> Expected(h, req, env) == Expected(h.(validator := None), req, env)
  {
  }

  /** A panic in fn never escapes ServeHTTP. With SkipPanic unset it is
      answered with a 500 "An unexpected error has occurred"; with SkipPanic
      set the recover has already run, so the panic is swallowed and nothing
      is written at all. */
  lemma PanicContained(h: Settings, req: RequestView, env: Env, args: seq<Value>, p: Value)
    requires Conforms(h.fn.fn, Arity(h.fn.unpack))
    requires ValidatorStage(h.validator, req, env).None?
    requires ResolveFrom(h.resolver, env, req, h.fn.ins, 0) == AllResolved(args)
    requires h.fn.fn(args) == Panicked(p)
    ensures var run := Expected(h, req, env);
      run.end == Completed && run.invoked == Some(args)
    ensures p != Nil && !h.skipPanic ==>
      Expected(h, req, env).writes ==
        [HeaderAdded("Content-Type", "application/json"), StatusWritten(500),
         BodyEncoded(ErrorBody(ErrorResponse(500, "An unexpected error has occurred", [])))]
    ensures h.skipPanic ==> Expected(h, req, env).writes == []
  {
  }

  /** After a normal return a non-nil error is sent as it is (its Coder status
      or 500, its message as details); otherwise the value is sent. With no
      results at all the answer is a bare 204. */
  lemma ReturnedResultSent(h: Settings, req: RequestView, env: Env, args: seq<Value>, outs: seq<Value>)
    requires Conforms(h.fn.fn, Arity(h.fn.unpack))
    requires ValidatorStage(h.validator, req, env).None?
    requires ResolveFrom(h.resolver, env, req, h.fn.ins, 0) == AllResolved(args)
    requires h.fn.fn(args) == Returned(outs)
    ensures var r := Call(h.fn, args, Nil, IsErrorValue);
      r.Normal? && Expected(h, req, env).end == Completed &&
      Expected(h, req, env).writes == SendTrace(if r.err != Nil then r.err else r.value)
    ensures var r := Call(h.fn, args, Nil, IsErrorValue);
      r.err != Nil ==>
        var s := if Code(r.err.e).Some? then Code(r.err.e).value else 500;
        Expected(h, req, env).writes ==
          [HeaderAdded("Content-Type", "application/json"), StatusWritten(s),
           BodyEncoded(ErrorBody(ErrorResponse(s, Message(r.err.e), [])))]
    ensures h.fn.unpack == NoOutputs ==> Expected(h, req, env).writes == [StatusWritten(204)]
  {
  }

  /** Options act in the order given: a later WithVar for the same position
      shadows an earlier one, and one for another position leaves it in force. */
  lemma LaterVarWins(r: Resolver, k1: string, k2: string, p: int, q: int,
                     src: VarSource, req: RequestView, t: GoType, pos: nat)
    ensures q == pos ==>
      Resolve(VarInjector(VarInjector(r, k1, p), k2, q), src, req, t, pos) == InjectVar(k2, src, req, t)
    ensures q != pos && p == pos ==>
      Resolve(VarInjector(VarInjector(r, k1, p), k2, q), src, req, t, pos) == InjectVar(k1, src, req, t)
  {
  }
}
