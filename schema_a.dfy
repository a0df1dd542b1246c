/** schema.go: the request validator backed by a JSON schema. It reads the
    whole body, puts an in-memory copy of the bytes back on the request so
    that argument resolution can still read them, closes the original body
    on the way out, and maps the library's outcome to (findings, error). */
module SchemaA {
  import opened Wrappers
  import opened Http
  import opened GoJsonSchema
  import opened ErrorsA

  /** The (findings, error) pair a validator returns. */
  datatype Validation = Validation(items: seq<ErrorItem>, err: Option<Error>)

  /** The io.Reader handed to WithSchema: its content, or the error reading it fails with. */
  datatype SchemaReader = SchemaReader(content: seq<byte>, failure: Option<Error>)

  /** One finding per library error, in the library's order, with field, value and description. */
  function Findings(errs: seq<ResultError>): (items: seq<ErrorItem>)
    ensures |items| == |errs|
    ensures forall i :: 0 <= i < |errs| ==>
      items[i] == ErrorItem(errs[i].field, errs[i].value, errs[i].description)
  {
    if errs == [] then []
    else [ErrorItem(errs[0].field, errs[0].value, errs[0].description)] + Findings(errs[1..])
  }

  /** The append loop of schema.go:63-71. */
  method CollectFindings(errs: seq<ResultError>) returns (items: seq<ErrorItem>)
    ensures items == Findings(errs)
  {
    items := [];
    var i := 0;
    while i < |errs|
      invariant 0 <= i <= |errs|
      invariant |items| == i
      invariant forall k :: 0 <= k < i ==> items[k] == Findings(errs)[k]
    {
      var res := errs[i];
      items := items + [ErrorItem(res.field, res.value, res.description)];
      i := i + 1;
    }
  }

  /** The outcome of Validate, given the body as it was and whether it could be read. */
  function ValidateSpec(loader: seq<byte>, body: seq<byte>, readable: bool, engine: Engine): Validation {
    if !readable then Validation([], Some(SentinelError(Unexpected)))
    else
      match engine(loader, body)
      case EOFError => Validation([], Some(SentinelError(EmptyBody)))
      case OtherError => Validation([], Some(SentinelError(Unexpected)))
      case Verdict(valid, errs) =>
        if valid then Validation([], None) else Validation(Findings(errs), None)
  }

  /** jsonSchemaValidator.Validate (schema.go:33-74). */
  method Validate(req: Request, loader: seq<byte>, engine: Engine) returns (v: Validation)
    modifies req, req.body
    ensures v == ValidateSpec(loader, old(req.body.data), old(req.body.Readable()), engine)
    ensures old(req.body).closed
    ensures old(req.body.Readable()) ==>
      fresh(req.body) && req.body.data == old(req.body.data) && req.body.nop && req.body.Readable()
    ensures !old(req.body.Readable()) ==> req.body == old(req.body)
  {
    var original := req.body;
    var b := original.ReadAll();
    if b.None? {
      original.Close();
      return Validation([], Some(SentinelError(Unexpected)));
    }
    req.body := new Body.Buffer(b.value);
    var result := engine(loader, b.value);
    if result.EOFError? {
      v := Validation([], Some(SentinelError(EmptyBody)));
    } else if result.OtherError? {
      v := Validation([], Some(SentinelError(Unexpected)));
    } else if result.valid {
      v := Validation([], None);
    } else {
      var items := CollectFindings(result.errors);
      v := Validation(items, None);
    }
    original.Close();
  }

  /** A body that cannot be read gives (nil, ErrUnexpected). */
  lemma ReadFailure(loader: seq<byte>, body: seq<byte>, engine: Engine)
    ensures ValidateSpec(loader, body, false, engine) == Validation([], Some(SentinelError(Unexpected)))
  {
  }

  /** The library's outcome decides the rest: EOF is ErrEmptyBody, another
      failure is ErrUnexpected, a valid document is (nil, nil), an invalid one
      gives its findings and no error. */
  lemma LibraryOutcome(loader: seq<byte>, body: seq<byte>, engine: Engine)
    ensures var v := ValidateSpec(loader, body, true, engine);
      match engine(loader, body)
      case EOFError => v.items == [] && v.err == Some(SentinelError(EmptyBody))
      case OtherError => v.items == [] && v.err == Some(SentinelError(Unexpected))
      case Verdict(valid, errs) =>
        v.err == None && (valid ==> v.items == []) &&
        (!valid ==>
          v.items == Findings(errs) && |v.items| == |errs| &&
          forall i :: 0 <= i < |errs| ==> v.items[i] == ErrorItem(errs[i].field, errs[i].value, errs[i].description))
  {
  }

  /** Findings and an error never come together. */
  lemma {:induction false} FindingsOnlyWithoutError(loader: seq<byte>, body: seq<byte>, readable: bool, engine: Engine)
    ensures var v := ValidateSpec(loader, body, readable, engine);
      v.items != [] ==> v.err == None
  {
  }
}
