/** jsonapi.go: the package's sentinel errors, the exported ApiError with
    its Error, Unwrap and Status methods and its JSON shape, the handler's
    pluggable components, and Wrap, which builds a handler from Defaults and
    then lets each option change it in turn.

    The values that travel through `interface{}` are `Value`s and errors are
    `Error`s, as in errors.go's model, but with this file's own declarations:
    the two sets of declarations are not merged. StatusReporter and
    domainError are used by defaults.go but declared in no file shown; here
    an *ApiError reports its StatusCode, and every other error or value says
    for itself whether it reports a status. */
module JsonApi {
  import opened Wrappers
  import opened Reflect
  import opened Http
  import opened Function

  /** The four package-level sentinels (jsonapi.go:9-12). */
  datatype Sentinel = Unexpected | EmptyBody | ArgumentUnsupported | ArgumentResolution

  function SentinelText(s: Sentinel): string {
    match s
    case Unexpected => "unexpected error"
    case EmptyBody => "request body cannot be empty"
    case ArgumentUnsupported => "argument resolution unsupported"
    case ArgumentResolution => "argument resolution error"
  }

  /** ErrorItem (jsonapi.go:87-91). `value` is the offending value as JSON text. */
  datatype ErrorItem = ErrorItem(field: string, value: string, msg: string)

  datatype Error =
    | SentinelError(s: Sentinel)
    | Text(msg: string)
    | Wrapped(msg: string, inner: Error)
    | Api(a: ApiError)
    | Domain(text: string, err: Error, reports: Option<int>)
    | Custom(typeName: string, msg: string, reports: Option<int>, wrapped: Option<Error>)

  /** ApiError (jsonapi.go:66-73). `sourceErr` is unexported. */
  datatype ApiError = ApiError(
    statusCode: int,
    kind: string,
    details: string,
    errors: seq<ErrorItem>,
    meta: map<string, string>,
    sourceErr: Option<Error>)

  /** err.Error(); for an *ApiError, its Details (jsonapi.go:75-77). */
  function Message(e: Error): string {
    match e
    case SentinelError(s) => SentinelText(s)
    case Text(m) => m
    case Wrapped(m, _) => m
    case Api(a) => a.details
    case Domain(t, _, _) => t
    case Custom(_, m, _, _) => m
  }

  /** errors.Unwrap(err); for an *ApiError, its sourceErr (jsonapi.go:79-81). */
  function Unwrap(e: Error): Option<Error> {
    match e
    case Wrapped(_, inner) => Some(inner)
    case Api(a) => a.sourceErr
    case Custom(_, _, _, w) => w
    case _ => None
  }

  /** ApiError.Status (jsonapi.go:83-85). */
  function Status(a: ApiError): int {
    a.statusCode
  }

  /** fmt.Errorf("%w: " + detail, target) */
  function Errorf(target: Error, detail: string): (e: Error)
    ensures Unwrap(e) == Some(target) && Message(e) == Message(target) + ": " + detail
  {
    Wrapped(Message(target) + ": " + detail, target)
  }

  /** errors.Is(e, target): target occurs on e's Unwrap chain. */
  predicate Is(e: Error, target: Error) {
    e == target ||
    match e
    case Wrapped(_, inner) => Is(inner, target)
    case Api(a) => a.sourceErr.Some? && Is(a.sourceErr.value, target)
    case Custom(_, _, _, Some(w)) => Is(w, target)
    case _ => false
  }

  /** A dynamic value: nil, a string, an error, a findings slice, the
      request's context, a value decoded from the body (of the declared
      type `t`), or a value of any other type. */
  datatype Value =
    | Nil
    | Str(s: string)
    | ErrValue(e: Error)
    | Items(items: seq<ErrorItem>)
    | ContextValue(t: GoType)
    | Object(t: GoType, content: string)
    | Other(typeName: string, text: string, reports: Option<int>)

  /** `v.(StatusReporter)`: the status a value reports, if its type reports one. */
  function ReportedStatus(v: Value): Option<int> {
    match v
    case ErrValue(Api(a)) => Some(a.statusCode)
    case ErrValue(Domain(_, _, r)) => r
    case ErrValue(Custom(_, _, r, _)) => r
    case Other(_, _, r) => r
    case _ => None
  }

  /** The keys of an ApiError's JSON object, in field order: `errors` and
      `meta` are omitempty, and sourceErr, being unexported, never appears. */
  function JsonKeys(a: ApiError): (keys: seq<string>)
    ensures 3 <= |keys| && keys[..3] == ["status", "kind", "details"]
    ensures "errors" in keys <==> |a.errors| != 0
    ensures "meta" in keys <==> |a.meta| != 0
  {
    ["status", "kind", "details"] +
    (if |a.errors| == 0 then [] else ["errors"]) +
    (if |a.meta| == 0 then [] else ["meta"])
  }

  /** A request validator's answer (jsonapi.go:50-63). */
  datatype Validation = Validation(items: seq<ErrorItem>, err: Option<Error>)

  /** A resolver's answer: the value and the error, both returned
      (jsonapi.go:105-113), or a panic raised while resolving. */
  datatype Resolution = Resolution(v: Value, err: Option<Error>) | ResolvePanicked(payload: Value)

  /** The argument resolvers: Defaults, gmux's VarInjector around another
      resolver, or any other resolver given by its answers. */
  datatype Resolver =
    | DefaultsResolver
    | GmuxInjector(next: Resolver, key: string, pos: int)
    | CustomResolver(answer: (RequestView, GoType, nat) -> Resolution)

  /** The request validators: Defaults, the schema validator of package
      jsonschema, or any other validator given by its answers. */
  datatype Validator =
    | DefaultsValidator
    | SchemaValidator(loader: seq<byte>)
    | CustomValidator(answer: RequestView -> Validation)

  /** The caster, logger and sender: Defaults, or a component of the user's. */
  datatype Component = DefaultsComponent | UserComponent(name: string)

  /** The handler's replaceable fields. */
  datatype Config = Config(
    validator: Validator,
    resolver: Resolver,
    caster: Component,
    logger: Component,
    sender: Component)

  /** What Wrap installs before any option runs (jsonapi.go:22-29). */
  const DefaultConfig := Config(DefaultsValidator, DefaultsResolver, DefaultsComponent, DefaultsComponent, DefaultsComponent)

  /** An option: it changes the handler's fields, or panics. */
  datatype OptOutcome = Applied(c: Config) | OptionPanicked(p: Value)

  type OptsFn = Config -> OptOutcome

  /** The options applied in argument order, each to the result of the ones
      before it; the first panic ends it. */
  function Configure(c: Config, opts: seq<OptsFn>): (o: OptOutcome)
    ensures |opts| == 0 ==> o == Applied(c)
    ensures o.OptionPanicked? ==> |opts| != 0
  {
    if |opts| == 0 then Applied(c)
    else
      match Configure(c, opts[..|opts| - 1])
      case Applied(c') => opts[|opts| - 1](c')
      case panicked => panicked
  }

  /** Applying more options after an outcome. */
  function Then(o: OptOutcome, opts: seq<OptsFn>): (r: OptOutcome)
    ensures o.OptionPanicked? ==> r == o
    ensures opts == [] ==> r == o
  {
    match o
    case Applied(c) => Configure(c, opts)
    case panicked => panicked
  }

  class JsonHandler {
    const fn: ReflectedFn<Value>
    var validator: Validator
    var resolver: Resolver
    var caster: Component
    var logger: Component
    var sender: Component

    constructor (fn: ReflectedFn<Value>, c: Config)
      ensures this.fn == fn && Settings() == c
    {
      this.fn := fn;
      validator, resolver := c.validator, c.resolver;
      caster, logger, sender := c.caster, c.logger, c.sender;
    }

    function Settings(): Config
      reads this
    {
      Config(validator, resolver, caster, logger, sender)
    }

    /** `opt(h)`: one option changing this handler in place. */
    method Apply(opt: OptsFn) returns (panicked: Option<Value>)
      modifies this
      ensures opt(old(Settings())).Applied? ==> panicked.None? && Settings() == opt(old(Settings())).c
      ensures opt(old(Settings())).OptionPanicked? ==>
        panicked == Some(opt(old(Settings())).p) && Settings() == old(Settings())
    {
      match opt(Settings()) {
        case Applied(c) =>
          validator, resolver := c.validator, c.resolver;
          caster, logger, sender := c.caster, c.logger, c.sender;
          return None;
        case OptionPanicked(p) =>
          return Some(p);
      }
    }
  }

  /** Wrap (jsonapi.go:21-36). A function shape reflectFunc rejects panics
      here, at construction; so does an option that panics. Otherwise the
      handler starts from Defaults and the options run in argument order. */
  method Wrap(t: GoType, body: seq<Value> -> Outcome<Value>, opts: seq<OptsFn>)
    returns (h: JsonHandler?, panicked: Option<Value>)
    ensures h == null <==> panicked.Some?
    ensures Reflection(t, body).WrapPanic? ==> h == null && panicked == Some(Str(Reflection(t, body).msg))
    ensures Reflection(t, body).Reflected? ==>
      match Configure(DefaultConfig, opts)
      case Applied(c) => h != null && fresh(h) && h.Settings() == c && h.fn == Reflection(t, body).r
      case OptionPanicked(p) => h == null && panicked == Some(p)
  {
    var r := ReflectFunc(t, body);
    if r.WrapPanic? {
      return null, Some(Str(r.msg));
    }
    h := new JsonHandler(r.r, DefaultConfig);
    var i := 0;
    while i < |opts|
      invariant 0 <= i <= |opts|
      invariant Configure(DefaultConfig, opts[..i]) == Applied(h.Settings())
      modifies h
    {
      assert opts[..i + 1][..i] == opts[..i];
      var p := h.Apply(opts[i]);
      if p.Some? {
        ConfigureAppend(DefaultConfig, opts[..i + 1], opts[i + 1..]);
        assert opts[..i + 1] + opts[i + 1..] == opts;
        return null, p;
      }
      i := i + 1;
    }
    assert opts[..i] == opts;
    panicked := None;
  }

  /** Options compose left to right: applying a + b is applying a, then b. */
  lemma {:induction false} ConfigureAppend(c: Config, a: seq<OptsFn>, b: seq<OptsFn>)
    ensures Configure(c, a + b) == Then(Configure(c, a), b)
    decreases |b|
  {
    if |b| == 0 {
      assert a + b == a;
    } else {
      assert (a + b)[..|a + b| - 1] == a + b[..|b| - 1];
      ConfigureAppend(c, a, b[..|b| - 1]);
      match Configure(c, a)
      case Applied(c') =>
      case OptionPanicked(_) =>
    }
  }

  /** When the options as a whole apply, so does every prefix of them: no
      option panicked along the way. */
  lemma {:induction false} AppliedPrefixes(c: Config, opts: seq<OptsFn>, k: nat)
    requires Configure(c, opts).Applied? && k <= |opts|
    ensures Configure(c, opts[..k]).Applied?
    decreases |opts|
  {
    if k < |opts| {
      var init := opts[..|opts| - 1];
      assert init[..k] == opts[..k];
      AppliedPrefixes(c, init, k);
    } else {
      assert opts[..k] == opts;
    }
  }

  /** An option that panics stops the rest: none after it runs. */
  lemma {:induction false} PanicStopsOptions(c: Config, a: seq<OptsFn>, b: seq<OptsFn>)
    requires Configure(c, a).OptionPanicked?
    ensures Configure(c, a + b) == Configure(c, a)
  {
    ConfigureAppend(c, a, b);
  }

  /** ApiError's methods (jsonapi.go:75-85): Error() is Details, Unwrap() is
      sourceErr, Status() is StatusCode, and the reported status is that too. */
  lemma ApiErrorAccessors(a: ApiError)
    ensures Message(Api(a)) == a.details && Unwrap(Api(a)) == a.sourceErr && Status(a) == a.statusCode
    ensures ReportedStatus(ErrValue(Api(a))) == Some(a.statusCode)
  {
  }

  /** The JSON object of an ApiError does not depend on its sourceErr. */
  lemma SourceNeverSerialized(a: ApiError, src: Option<Error>)
    ensures JsonKeys(a.(sourceErr := src)) == JsonKeys(a)
    ensures |JsonKeys(a)| <= 5
  {
  }

  /** The four sentinels are distinct: each matches only itself. */
  lemma SentinelsDistinct(a: Sentinel, b: Sentinel)
    ensures Is(SentinelError(a), SentinelError(b)) <==> a == b
    ensures a != b ==> SentinelText(a) != SentinelText(b)
  {
  }

  /** An fmt.Errorf wrapping of a sentinel matches that sentinel and no other. */
  lemma WrappedSentinel(a: Sentinel, b: Sentinel, detail: string)
    ensures Is(Errorf(SentinelError(a), detail), SentinelError(b)) <==> a == b
  {
  }

  /** errors.Is is membership in the chain that Unwrap walks. */
  lemma {:induction false} IsFollowsUnwrap(e: Error, target: Error)
    ensures Is(e, target) <==> e == target || (Unwrap(e).Some? && Is(Unwrap(e).value, target))
  {
  }
}
