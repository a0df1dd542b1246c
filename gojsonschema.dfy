/** The result shape of the JSON-Schema library used by the schema
    validators. What makes a document valid is the library's business; the
    model keeps only what the validators branch on: a failure (io.EOF or any
    other), or a verdict with the library's ordered list of errors. */
module GoJsonSchema {
  import opened Http

  /** One library error: the field path, the offending value (as JSON text) and its description. */
  datatype ResultError = ResultError(field: string, value: string, description: string)

  datatype SchemaResult =
    | EOFError
    | OtherError
    | Verdict(valid: bool, errors: seq<ResultError>)

  /** gojsonschema.Validate(schemaLoader, documentLoader), left uninterpreted. */
  type Engine = (seq<byte>, seq<byte>) -> SchemaResult
}
