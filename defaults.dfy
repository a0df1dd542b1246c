/** defaults.go: the Defaults component, which is at once the argument
    resolver, the request validator, the error caster, the error logger and
    the response sender.

    encoding/json is not interpreted: decoding the body into a new value of a
    struct type is a `Decoder` given as a parameter, and encoding a value is
    an `Encoder` that says whether encoding fails. */
module Defaults {
  import opened Wrappers
  import opened Reflect
  import opened Http
  import opened Fmt
  import opened JsonApi

  /** json.NewDecoder(req.Body).Decode(&v), where v is an `interface{}`
      holding a new pointer to the given struct type: io.EOF, another
      error, the JSON literal `null` (which sets v itself to nil), or a
      document decoded into the struct. */
  datatype DecodeOutcome = DecodeEOF | DecodeFailed(msg: string) | DecodedNull | Decoded(content: string)

  type Decoder = (GoType, RequestView) -> DecodeOutcome

  /** json.NewEncoder(w).Encode(v): the encoder's error, if any. */
  type Encoder = Value -> Option<Error>

  /** A struct, or a pointer to a struct, with at least one field tagged `json`. */
  predicate JsonStruct(t: GoType) {
    TaggedStruct(if t.PtrT? then t.elem else t)
  }

  predicate TaggedStruct(s: GoType) {
    s.StructT? && exists i :: 0 <= i < |s.fields| && "json" in s.fields[i].tagKeys
  }

  /** isStructWithJson (defaults.go:162-179). */
  method IsStructWithJson(t: GoType) returns (b: bool)
    ensures b == JsonStruct(t)
  {
    var s := if t.PtrT? then t.elem else t;
    if !s.StructT? {
      return false;
    }
    for i := 0 to |s.fields|
      invariant forall j :: 0 <= j < i ==> "json" !in s.fields[j].tagKeys
    {
      if "json" in s.fields[i].tagKeys {
        assert 0 <= i < |s.fields| && "json" in s.fields[i].tagKeys;
        return true;
      }
    }
    return false;
  }

  /** The dynamic type of a resolved value. */
  function TypeOf(v: Value): Option<GoType> {
    match v
    case ContextValue(t) => Some(t)
    case Object(t, _) => Some(t)
    case _ => None
  }

  /** The panic of `reflect.Value.Elem` called on the zero Value. */
  const ElemOfZeroValue := ErrValue(Custom("*reflect.ValueError", "reflect: call of reflect.Value.Elem on zero Value", None, None))

  /** defaults.Resolve (defaults.go:26-64). A context interface gets the
      request's context; a JSON-tagged struct, or pointer to one, is decoded
      from the body; any other type is unsupported. A `null` body leaves the
      decoded interface nil: a pointer parameter then gets the zero Value and
      no error, and a struct parameter panics on `Elem`. */
  function Resolve(req: RequestView, t: GoType, pos: nat, decode: Decoder): (r: Resolution)
    ensures r.ResolvePanicked? <==>
      !Implements(t, ContextType) && JsonStruct(t) && !t.PtrT? && decode(t, req).DecodedNull?
    ensures r.ResolvePanicked? ==> r.payload == ElemOfZeroValue
    ensures r.Resolution? && r.err.None? ==>
      (TypeOf(r.v).Some? && AssignableTo(TypeOf(r.v).value, t)) ||
      (r.v == Nil && t.PtrT? && decode(t.elem, req).DecodedNull?)
    ensures r.Resolution? && r.err.Some? ==>
      var e := r.err.value;
      Is(e, SentinelError(ArgumentResolution)) || Is(e, SentinelError(ArgumentUnsupported)) ||
      e == SentinelError(EmptyBody)
    ensures r.Resolution? && r.err.Some? && Is(r.err.value, SentinelError(ArgumentUnsupported)) ==>
      !Implements(t, ContextType) && !JsonStruct(t)
    ensures !Implements(t, ContextType) && !JsonStruct(t) ==>
      r.Resolution? && r.v == Nil && r.err.Some? && Is(r.err.value, SentinelError(ArgumentUnsupported)) &&
      !Is(r.err.value, SentinelError(ArgumentResolution))
    ensures Implements(t, ContextType) ==> r.Resolution? && r.v == ContextValue(req.ctxType)
    ensures !Implements(t, ContextType) && r.Resolution? && r.err.Some? ==> r.v == Nil
  {
    if Implements(t, ContextType) then
      if !AssignableTo(req.ctxType, t) then
        WrappedSentinel(ArgumentResolution, ArgumentUnsupported, "context of type " + TypeString(req.ctxType) +
          " is not assignable to argument in pos #" + Decimal(pos) + " (" + TypeString(t) + ")");
        Resolution(ContextValue(req.ctxType), Some(Errorf(SentinelError(ArgumentResolution),
          "context of type " + TypeString(req.ctxType) + " is not assignable to argument in pos #" +
          Decimal(pos) + " (" + TypeString(t) + ")")))
      else Resolution(ContextValue(req.ctxType), None)
    else if !JsonStruct(t) then
      var detail := "argument #" + Decimal(pos) + " (" + TypeString(t) + ")";
      WrappedSentinel(ArgumentUnsupported, ArgumentResolution, detail);
      WrappedSentinel(ArgumentUnsupported, ArgumentUnsupported, detail);
      Resolution(Nil, Some(Errorf(SentinelError(ArgumentUnsupported), detail)))
    else
      match decode(if t.PtrT? then t.elem else t, req)
      case DecodeEOF => Resolution(Nil, Some(SentinelError(EmptyBody)))
      case DecodeFailed(msg) =>
        WrappedSentinel(ArgumentResolution, ArgumentUnsupported, msg);
        Resolution(Nil, Some(Errorf(SentinelError(ArgumentResolution), msg)))
      case DecodedNull => if t.PtrT? then Resolution(Nil, None) else ResolvePanicked(ElemOfZeroValue)
      case Decoded(content) => Resolution(Object(t, content), None)
  }

  /** The decoding branch of Resolve, outcome by outcome: an EOF is exactly
      ErrEmptyBody, a decode error wraps ErrArgumentResolution, a `null` body
      is the zero Value without error for a pointer and a panic for a struct,
      and a decoded value comes back as a pointer or a value, as the declared
      type asks. */
  lemma {:induction false} DecodeOutcomes(req: RequestView, t: GoType, pos: nat, decode: Decoder)
    requires !Implements(t, ContextType) && JsonStruct(t)
    ensures var d := decode(if t.PtrT? then t.elem else t, req);
      var r := Resolve(req, t, pos, decode);
      && (d.DecodeEOF? ==> r == Resolution(Nil, Some(SentinelError(EmptyBody))))
      && (d.DecodeFailed? ==> r == Resolution(Nil, Some(Errorf(SentinelError(ArgumentResolution), d.msg))))
      && (d.DecodedNull? && t.PtrT? ==> r == Resolution(Nil, None))
      && (d.DecodedNull? && !t.PtrT? ==> r == ResolvePanicked(ElemOfZeroValue))
      && (d.Decoded? ==> r == Resolution(Object(t, d.content), None))
  {
  }

  /** A context is injected whenever its concrete type fits the parameter;
      otherwise the error wraps ErrArgumentResolution, and the context value
      is still returned beside it. */
  lemma {:induction false} ContextInjection(req: RequestView, t: GoType, pos: nat, decode: Decoder)
    requires Implements(t, ContextType)
    ensures var r := Resolve(req, t, pos, decode);
      r.Resolution? &&
      (r.err.None? <==> AssignableTo(req.ctxType, t)) &&
      (r.err.Some? ==> Unwrap(r.err.value) == Some(SentinelError(ArgumentResolution)))
  {
  }

  /** defaults.Validate (defaults.go:66-68). */
  function Validate(req: RequestView): (v: Validation)
    ensures |v.items| == 0 && v.err.None?
  {
    Validation([], None)
  }

  /** CastError stated rule by rule, each rule taking precedence over the
      ones after it. This is the order in which the sequential `if`s of
      defaults.go:70-126 leave their last word. */
  function CastSpec(v: Value, logDomainErrors: bool): (e: Error)
    ensures e.Api?
  {
    var unknown := ApiError(ReportedStatus(v).GetOr(500), "Unknown", "Request failed with unknown error", [], map[], None);
    match v
    case Str(s) => Api(unknown.(sourceErr := Some(Text(s))))
    case ErrValue(Domain(_, inner, _)) =>
      Api(ApiError(400, "Domain Error", Message(inner), [], map[], if logDomainErrors then Some(v.e) else None))
    case ErrValue(t) =>
      if Is(t, SentinelError(ArgumentUnsupported)) || Is(t, SentinelError(ArgumentResolution)) then
        Api(ApiError(500, "Handler Error", "Could not resolve handler arguments", [], map[],
          if Is(t, SentinelError(EmptyBody)) then None else Some(t)))
      else if Is(t, SentinelError(EmptyBody)) then
        Api(ApiError(400, "Invalid Request", "Request body cannot be empty", [], map[], None))
      else if Is(t, SentinelError(Unexpected)) then
        Api(ApiError(500, "Handler Error", "Unexpected error while handling the request", [], map[], Some(t)))
      else Api(unknown.(sourceErr := Some(t)))
    case Items(items) => Api(ApiError(400, "Invalid Request", "Request body validation has failed", items, map[], None))
    case _ => Api(unknown)
  }

  /** defaults.CastError (defaults.go:70-126), as written: a record that
      starts as the unknown error and is overwritten step by step. The
      `*ApiError` case comes after the `error` case, which every *ApiError
      already matches, so it never fires. */
  method CastError(v: Value, logDomainErrors: bool) returns (e: Error)
    ensures e == CastSpec(v, logDomainErrors)
  {
    var status, kind, details := 500, "Unknown", "Request failed with unknown error";
    var errs: seq<ErrorItem> := [];
    var source: Option<Error> := None;
    var reported := ReportedStatus(v);
    if reported.Some? {
      status := reported.value;
    }
    match v {
      case Str(s) =>
        source := Some(Text(s));
      case ErrValue(Domain(_, inner, _)) =>
        status, kind, details := 400, "Domain Error", Message(inner);
        if logDomainErrors {
          source := Some(v.e);
        }
      case ErrValue(t) =>
        source := Some(t);
        if Is(t, SentinelError(Unexpected)) {
          status, kind, details := 500, "Handler Error", "Unexpected error while handling the request";
        }
        if Is(t, SentinelError(EmptyBody)) {
          status, kind, details := 400, "Invalid Request", "Request body cannot be empty";
          source := None;
        }
        if Is(t, SentinelError(ArgumentUnsupported)) || Is(t, SentinelError(ArgumentResolution)) {
          status, kind, details := 500, "Handler Error", "Could not resolve handler arguments";
        }
      case Items(items) =>
        status, kind, details := 400, "Invalid Request", "Request body validation has failed";
        errs := items;
      case _ =>
    }
    e := Api(ApiError(status, kind, details, errs, map[], source));
  }

  /** Later sentinel checks win: a resolution error that also wraps
      ErrEmptyBody is a 500 "Could not resolve handler arguments" and keeps
      no cause; ErrEmptyBody alone is a 400 without cause, even when it also
      wraps ErrUnexpected. */
  lemma {:induction false} SentinelPrecedence(t: Error, logDomainErrors: bool)
    requires !t.Domain?
    ensures var a := CastSpec(ErrValue(t), logDomainErrors).a;
      (Is(t, SentinelError(ArgumentResolution)) && Is(t, SentinelError(EmptyBody)) ==>
        a.statusCode == 500 && a.details == "Could not resolve handler arguments" && a.sourceErr.None?) &&
      (!Is(t, SentinelError(ArgumentResolution)) && !Is(t, SentinelError(ArgumentUnsupported)) &&
       Is(t, SentinelError(EmptyBody)) ==>
        a.statusCode == 400 && a.kind == "Invalid Request" && a.sourceErr.None?) &&
      (!Is(t, SentinelError(EmptyBody)) ==> a.sourceErr == Some(t))
  {
  }

  /** A reported status survives only where no later branch sets one: for a
      string, a plain error and any other value; a domain error is always 400. */
  lemma {:induction false} ReportedStatusKept(v: Value, logDomainErrors: bool)
    requires ReportedStatus(v).Some?
    ensures var a := CastSpec(v, logDomainErrors).a;
      (v.ErrValue? && v.e.Domain? ==> a.statusCode == 400) &&
      (v.ErrValue? && !v.e.Domain? && !Is(v.e, SentinelError(Unexpected)) && !Is(v.e, SentinelError(EmptyBody)) &&
       !Is(v.e, SentinelError(ArgumentUnsupported)) && !Is(v.e, SentinelError(ArgumentResolution)) ==>
        a.statusCode == ReportedStatus(v).value && a.kind == "Unknown") &&
      (v.Other? ==> a.statusCode == ReportedStatus(v).value && a.sourceErr.None?)
  {
  }

  /** A domain error is a 400 "Domain Error" carrying its inner message, with
      the domain error as cause only when LogDomainErrors is set; findings are
      a 400 carrying the items in order. */
  lemma DomainAndFindings(text: string, inner: Error, r: Option<int>, items: seq<ErrorItem>, logDomainErrors: bool)
    ensures CastSpec(ErrValue(Domain(text, inner, r)), logDomainErrors).a ==
      ApiError(400, "Domain Error", Message(inner), [], map[],
               if logDomainErrors then Some(Domain(text, inner, r)) else None)
    ensures CastSpec(Items(items), logDomainErrors).a ==
      ApiError(400, "Invalid Request", "Request body validation has failed", items, map[], None)
  {
  }

  /** As written, casting an *ApiError does not pass it through: the
      gmux 404 ApiError comes back as a 404 "Unknown" error wrapping it. */
  lemma CastRewrapsApiError(meta: map<string, string>)
    ensures var a := ApiError(404, "Not Found", "Handler not found for request", [], meta, None);
      CastSpec(ErrValue(Api(a)), false) ==
        Api(ApiError(404, "Unknown", "Request failed with unknown error", [], map[], Some(Api(a)))) &&
      CastSpec(ErrValue(Api(a)), false) != Api(a)
  {
  }

  /** CastError with the `*ApiError` case placed before the `error` case, so
      that an *ApiError passes through as it is. */
  function CastFixed(v: Value, logDomainErrors: bool): (e: Error)
    ensures e.Api?
    ensures v.ErrValue? && v.e.Api? ==> e == v.e
    ensures !(v.ErrValue? && v.e.Api?) ==> e == CastSpec(v, logDomainErrors)
  {
    if v.ErrValue? && v.e.Api? then v.e else CastSpec(v, logDomainErrors)
  }

  /** With the pass-through in place, casting is idempotent. */
  lemma CastFixedIdempotent(v: Value, logDomainErrors: bool)
    ensures CastFixed(ErrValue(CastFixed(v, logDomainErrors)), logDomainErrors) == CastFixed(v, logDomainErrors)
  {
  }

  /** The line LogError writes (defaults.go:128-138): an *ApiError logs its
      sourceErr, any other error itself, and nothing is logged for nil. */
  function LogLine(err: Option<Error>): (line: Option<string>)
    ensures line.Some? ==> err.Some?
    ensures err.Some? && err.value.Api? ==>
      (line.Some? <==> err.value.a.sourceErr.Some?) &&
      (line.Some? ==> line.value == Message(err.value.a.sourceErr.value))
    ensures err.Some? && !err.value.Api? ==> line == Some(Message(err.value))
  {
    var e := if err.Some? && err.value.Api? then err.value.a.sourceErr else err;
    if e.None? then None else Some(Message(e.value))
  }

  /** The log standing in for the standard logger. */
  class Log {
    var lines: seq<string>

    constructor ()
      ensures lines == []
    {
      lines := [];
    }
  }

  /** defaults.LogError (defaults.go:128-138). */
  method LogError(log: Log, err: Option<Error>)
    modifies log
    ensures log.lines == old(log.lines) + (if LogLine(err).Some? then [LogLine(err).value] else [])
  {
    var e := err;
    if e.Some? && e.value.Api? {
      e := e.value.a.sourceErr;
    }
    if e.None? {
      return;
    }
    log.lines := log.lines + [Message(e.value)];
  }

  /** What the cast of an empty-body error, or of findings, logs: nothing. A
      string payload logs the string itself. */
  lemma {:induction false} CastLogging(t: Error, items: seq<ErrorItem>, s: string, logDomainErrors: bool)
    ensures Is(t, SentinelError(EmptyBody)) ==> LogLine(Some(CastSpec(ErrValue(t), logDomainErrors))).None?
    ensures LogLine(Some(CastSpec(Items(items), logDomainErrors))).None?
    ensures LogLine(Some(CastSpec(Str(s), logDomainErrors))) == Some(s)
  {
  }

  /** The status SendResponse writes for a non-nil value. */
  function StatusFor(v: Value): int {
    ReportedStatus(v).GetOr(StatusOK)
  }

  /** What defaults.SendResponse writes (defaults.go:140-160). */
  function SendTrace(v: Value, encode: Encoder): (t: seq<Event<Value>>)
    ensures v.Nil? ==> t == [StatusWritten(StatusNoContent)]
    ensures !v.Nil? ==> 2 <= |t| && t[..2] == [HeaderAdded("Content-Type", "application/json"), StatusWritten(StatusFor(v))]
    ensures !v.Nil? ==> (BodyEncoded(v) in t <==> encode(v).None?)
    ensures StatusCount(t) == 1
  {
    if v.Nil? then [StatusWritten(StatusNoContent)]
    else
      var head := [HeaderAdded("Content-Type", "application/json"), StatusWritten(StatusFor(v))];
      var t := if encode(v).None? then head + [BodyEncoded(v)] else head;
      assert t[1..][1..] == t[2..];
      assert StatusCount(t[2..]) == 0;
      t
  }

  /** defaults.SendResponse (defaults.go:140-160): 204 alone for nil;
      otherwise the header, the reported status or 200, and the encoded value.
      An encoding failure is a panic with the encoder's error. */
  method SendResponse(w: Recorder<Value>, v: Value, encode: Encoder) returns (panicked: Option<Value>)
    modifies w
    ensures w.events == old(w.events) + SendTrace(v, encode)
    ensures panicked.Some? <==> !v.Nil? && encode(v).Some?
    ensures panicked.Some? ==> panicked.value == ErrValue(encode(v).value)
  {
    if v.Nil? {
      w.WriteHeader(StatusNoContent);
      return None;
    }
    var status := StatusOK;
    var reported := ReportedStatus(v);
    if reported.Some? {
      status := reported.value;
    }
    w.AddHeader("Content-Type", "application/json");
    w.WriteHeader(status);
    var err := encode(v);
    if err.Some? {
      return Some(ErrValue(err.value));
    }
    w.Encode(v);
    return None;
  }

  /** Every cast error is sent with its own status on the status line. */
  lemma {:induction false} CastStatusOnTheWire(v: Value, logDomainErrors: bool, encode: Encoder)
    ensures var a := CastSpec(v, logDomainErrors).a;
      SendTrace(ErrValue(Api(a)), encode)[1] == StatusWritten(a.statusCode)
  {
  }
}
