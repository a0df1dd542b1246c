/** jsonschema/jsonschema.go: package jsonschema's validator backed by a
    JSON schema, and the WithSchema option of the option-based Wrap. It is
    the same algorithm as schema.go's, over this generation's ErrorItem and
    sentinel errors: read the whole body, put an in-memory copy of the bytes
    back on the request, close the original body on the way out, and map the
    library's outcome to (findings, error). */
module JsonSchema {
  import opened Wrappers
  import opened Http
  import opened GoJsonSchema
  import opened JsonApi

  /** The io.Reader handed to WithSchema: its content, or the error reading it fails with. */
  datatype SchemaReader = SchemaReader(content: seq<byte>, failure: Option<Error>)

  /** WithSchema (jsonschema/jsonschema.go:11-26): nil changes nothing; a
      schema that cannot be read panics with the read error; otherwise the
      schema validator is installed and nothing else changes. */
  function WithSchema(schema: Option<SchemaReader>): (opt: OptsFn)
    ensures forall c: Config :: opt(c).OptionPanicked? <==> schema.Some? && schema.value.failure.Some?
    ensures forall c: Config :: opt(c).OptionPanicked? ==> opt(c).p == ErrValue(schema.value.failure.value)
    ensures forall c: Config :: opt(c).Applied? ==>
      opt(c).c.(validator := c.validator) == c &&
      (schema.None? ==> opt(c).c == c) &&
      (schema.Some? ==> opt(c).c.validator == SchemaValidator(schema.value.content))
  {
    (c: Config) =>
      if schema.None? then Applied(c)
      else if schema.value.failure.Some? then OptionPanicked(ErrValue(schema.value.failure.value))
      else Applied(c.(validator := SchemaValidator(schema.value.content)))
  }

  /** NewJsonSchemaValidator (jsonschema/jsonschema.go:28-30). */
  function NewJsonSchemaValidator(loader: seq<byte>): (v: Validator)
    ensures v.SchemaValidator? && v.loader == loader
  {
    SchemaValidator(loader)
  }

  /** One finding per library error, in the library's order, with field, value and description. */
  function Findings(errs: seq<ResultError>): (items: seq<ErrorItem>)
    ensures |items| == |errs|
    ensures forall i :: 0 <= i < |errs| ==>
      items[i] == ErrorItem(errs[i].field, errs[i].value, errs[i].description)
  {
    if errs == [] then []
    else [ErrorItem(errs[0].field, errs[0].value, errs[0].description)] + Findings(errs[1..])
  }

  /** The append loop of jsonschema/jsonschema.go:68-76. */
  method CollectFindings(errs: seq<ResultError>) returns (items: seq<ErrorItem>)
    ensures items == Findings(errs)
  {
    items := [];
    for i := 0 to |errs|
      invariant |items| == i
      invariant forall k :: 0 <= k < i ==> items[k] == Findings(errs)[k]
    {
      items := items + [ErrorItem(errs[i].field, errs[i].value, errs[i].description)];
    }
  }

  /** The outcome of Validate, given the body as it was and whether it could be read. */
  function ValidateSpec(loader: seq<byte>, body: seq<byte>, readable: bool, engine: Engine): Validation {
    if !readable then Validation([], Some(SentinelError(Unexpected)))
    else
      match engine(loader, body)
      case EOFError => Validation([], Some(SentinelError(EmptyBody)))
      case OtherError => Validation([], Some(SentinelError(Unexpected)))
      case Verdict(valid, errs) =>
        if valid then Validation([], None) else Validation(Findings(errs), None)
  }

  /** jsonSchemaValidator.Validate (jsonschema/jsonschema.go:38-79). */
  method Validate(req: Request, loader: seq<byte>, engine: Engine) returns (v: Validation)
    modifies req, req.body
    ensures v == ValidateSpec(loader, old(req.body.data), old(req.body.Readable()), engine)
    ensures old(req.body).closed
    ensures old(req.body.Readable()) ==>
      fresh(req.body) && req.body.data == old(req.body.data) && req.body.nop && req.body.Readable()
    ensures !old(req.body.Readable()) ==> req.body == old(req.body)
  {
    var original := req.body;
    var b := original.ReadAll();
    if b.None? {
      original.Close();
      return Validation([], Some(SentinelError(Unexpected)));
    }
    req.body := new Body.Buffer(b.value);
    var result := engine(loader, b.value);
    if result.EOFError? {
      v := Validation([], Some(SentinelError(EmptyBody)));
    } else if result.OtherError? {
      v := Validation([], Some(SentinelError(Unexpected)));
    } else if result.valid {
      v := Validation([], None);
    } else {
      var items := CollectFindings(result.errors);
      v := Validation(items, None);
    }
    original.Close();
  }

  /** The validator only ever fails with the two sentinels the
      RequestValidator contract names (jsonapi.go:56-59), and findings never
      come with an error. */
  lemma {:induction false} ContractErrors(loader: seq<byte>, body: seq<byte>, readable: bool, engine: Engine)
    ensures var v := ValidateSpec(loader, body, readable, engine);
      (v.err.Some? ==> v.err.value in {SentinelError(Unexpected), SentinelError(EmptyBody)} && v.items == []) &&
      (!readable ==> v.err == Some(SentinelError(Unexpected))) &&
      (readable && engine(loader, body).EOFError? ==> v.err == Some(SentinelError(EmptyBody)))
  {
  }

  /** An invalid document gives exactly its findings, in order; a valid one gives (nil, nil). */
  lemma {:induction false} VerdictOutcome(loader: seq<byte>, body: seq<byte>, engine: Engine)
    requires engine(loader, body).Verdict?
    ensures var r := engine(loader, body);
      var v := ValidateSpec(loader, body, true, engine);
      v.err.None? && (r.valid ==> v.items == []) &&
      (!r.valid ==>
        v.items == Findings(r.errors) && |v.items| == |r.errors| &&
        forall i :: 0 <= i < |r.errors| ==>
          v.items[i] == ErrorItem(r.errors[i].field, r.errors[i].value, r.errors[i].description))
  {
  }

  /** WithSchema(nil) is a no-op; otherwise it touches the validator alone. */
  lemma WithSchemaEffect(schema: Option<SchemaReader>, c: Config)
    ensures schema.None? ==> WithSchema(schema)(c) == Applied(c)
    ensures schema.Some? && schema.value.failure.None? ==>
      WithSchema(schema)(c) == Applied(c.(validator := SchemaValidator(schema.value.content)))
    ensures schema.Some? && schema.value.failure.Some? ==> WithSchema(schema)(c).OptionPanicked?
  {
  }
}
