/** errors.go: the sentinel errors, the `apiError` type with its Error,
    Unwrap and Code methods, Go's error-wrapping chain as `errors.Is` walks
    it, and panicToError.

    Errors are values of a datatype: a package-level sentinel, a fresh
    errors.New text, an fmt.Errorf wrapping with `%w`, an *apiError, or an
    error of some other type returned by a wrapped function (which may
    implement Coder and may wrap another error). Comparison is structural;
    it agrees with Go's pointer comparison whenever the target is a
    sentinel, which is the only way the package uses errors.Is.

    The dynamic values that travel through `interface{}` (results, panic
    payloads, validation findings) are `Value`s. */
module ErrorsA {
  import opened Wrappers

  /** The package-level sentinels. `Unexpected` is not declared in errors.go;
      schema.go returns it, and its text is the one jsonapi.go:9 gives it. */
  datatype Sentinel = EmptyBody | ArgumentResolution | ArgumentUnsupported | Unexpected

  function SentinelText(s: Sentinel): string {
    match s
    case EmptyBody => "request body is empty"
    case ArgumentResolution => "argument resolution error"
    case ArgumentUnsupported => "argument resolution unsupported"
    case Unexpected => "unexpected error"
  }

  datatype Error =
    | SentinelError(s: Sentinel)
    | Text(msg: string)
    | Wrapped(msg: string, inner: Error)
    | ApiError(code: int, msg: string, prev: Option<Error>)
    | UserError(typeName: string, msg: string, coder: Option<int>, wrapped: Option<Error>)

  /** err.Error() */
  function Message(e: Error): string {
    match e
    case SentinelError(s) => SentinelText(s)
    case Text(m) => m
    case Wrapped(m, _) => m
    case ApiError(_, m, _) => m
    case UserError(_, m, _, _) => m
  }

  /** errors.Unwrap(err): the wrapped error, if the type has one. */
  function Unwrap(e: Error): Option<Error> {
    match e
    case Wrapped(_, inner) => Some(inner)
    case ApiError(_, _, prev) => prev
    case UserError(_, _, _, w) => w
    case _ => None
  }

  /** The Coder capability: Some(Code()) when the error's type implements it. */
  function Code(e: Error): Option<int> {
    match e
    case ApiError(c, _, _) => Some(c)
    case UserError(_, _, c, _) => c
    case _ => None
  }

  /** fmt.Errorf("%w: " + detail, target) */
  function Errorf(target: Error, detail: string): (e: Error)
    ensures Unwrap(e) == Some(target) && Message(e) == Message(target) + ": " + detail
  {
    Wrapped(Message(target) + ": " + detail, target)
  }

  /** errors.Is(e, target): target occurs on e's Unwrap chain. */
  predicate Is(e: Error, target: Error) {
    e == target ||
    match e
    case Wrapped(_, inner) => Is(inner, target)
    case ApiError(_, _, Some(p)) => Is(p, target)
    case UserError(_, _, _, Some(w)) => Is(w, target)
    case _ => false
  }

  /** errors.Is on a possibly nil error: nil matches no sentinel. */
  predicate IsOpt(e: Option<Error>, target: Error) {
    e.Some? && Is(e.value, target)
  }

  /** errors.Is is membership in the chain that Unwrap walks. */
  lemma {:induction false} IsFollowsUnwrap(e: Error, target: Error)
    ensures Is(e, target) <==> e == target || (Unwrap(e).Some? && Is(Unwrap(e).value, target))
  {
  }

  /** A sentinel wraps nothing, so it matches only itself. */
  lemma SentinelsDistinct(a: Sentinel, b: Sentinel)
    ensures Is(SentinelError(a), SentinelError(b)) <==> a == b
  {
  }

  /** One validation finding (validator.go:22-26). `value` is the offending value as JSON text. */
  datatype ErrorItem = ErrorItem(field: string, value: string, msg: string)

  /** A dynamic value held in an `interface{}`. `Other` stands for any other
      type: `text` is its %v rendering and `coder` is Some(Code()) when it
      implements Coder. */
  datatype Value =
    | Nil
    | Str(s: string)
    | ErrorValue(e: Error)
    | Findings(items: seq<ErrorItem>)
    | Other(typeName: string, text: string, coder: Option<int>)

  predicate IsErrorValue(v: Value) {
    v.ErrorValue?
  }

  /** fmt.Sprintf("%v", v). Pointer addresses are not modelled, so a slice
      of findings renders as a fixed placeholder. */
  function Render(v: Value): string {
    match v
    case Nil => "<nil>"
    case Str(s) => s
    case ErrorValue(e) => Message(e)
    case Findings(_) => "[...]"
    case Other(_, text, _) => text
  }

  /** panicToError (errors.go:49-64): a 500 apiError whose cause carries the payload. */
  function PanicToError(v: Value): (e: Error)
    ensures Code(e) == Some(500) && Message(e) == "An unexpected error has occurred"
    ensures Unwrap(e).Some? && Message(Unwrap(e).value) == Render(v)
    ensures v.ErrorValue? ==> Unwrap(e) == Some(v.e)
    ensures !v.ErrorValue? ==> Unwrap(e).value.Text?
  {
    var cause :=
      match v
      case Str(s) => Text(s)
      case ErrorValue(err) => err
      case _ => Text(Render(v));
    ApiError(500, "An unexpected error has occurred", Some(cause))
  }

  /** An error payload keeps its whole chain under the recovered apiError. */
  lemma {:induction false} PanicKeepsChain(v: Value, target: Error)
    requires v.ErrorValue?
    ensures Is(v.e, target) ==> Is(PanicToError(v), target)
  {
  }

  /** apiError's accessors (errors.go:37-47). */
  lemma ApiErrorAccessors(code: int, msg: string, prev: Option<Error>)
    ensures Message(ApiError(code, msg, prev)) == msg
    ensures Code(ApiError(code, msg, prev)) == Some(code)
    ensures Unwrap(ApiError(code, msg, prev)) == prev
  {
  }
}
