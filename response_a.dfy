/** response.go and the default HandleError of errors.go: how a value
    becomes a status line and a JSON body. The status and the encoded value
    are derived first (a pure step); then the Content-Type header, the
    status and the body are written to the response in that order. */
module ResponseA {
  import opened Wrappers
  import opened Http
  import opened ErrorsA

  /** errorResponse (response.go:8-12). `errors` is omitted from the JSON when empty. */
  datatype ErrorResponse = ErrorResponse(statusCode: int, details: string, errors: seq<ErrorItem>)

  /** What gets encoded: the value itself, or an errorResponse built from it. */
  datatype Payload = ValueBody(v: Value) | ErrorBody(r: ErrorResponse)

  /** The outcome of the derivation: 204 with nothing else, or a status and a payload. */
  datatype Reply = NoContent | Reply(status: int, payload: Payload)

  /** The Coder capability of a dynamic value (`v.(Coder)`). */
  function CoderStatus(v: Value): Option<int> {
    match v
    case ErrorValue(e) => Code(e)
    case Other(_, _, c) => c
    case _ => None
  }

  /** The status/body derivation of sendResponse (response.go:19-49). */
  function Derive(v: Value): (r: Reply)
    ensures r.NoContent? <==> v.Nil?
    ensures r.Reply? && r.payload.ErrorBody? ==> r.payload.r.statusCode == r.status
    ensures r.Reply? ==> (r.payload.ErrorBody? <==> v.ErrorValue? || v.Findings?)
    ensures r.Reply? && r.payload.ValueBody? ==> r.payload.v == v
  {
    match v
    case Nil => NoContent
    case ErrorValue(e) =>
      var status := Code(e).GetOr(StatusInternalServerError);
      Reply(status, ErrorBody(ErrorResponse(status, Message(e), [])))
    case Findings(items) =>
      Reply(StatusBadRequest, ErrorBody(ErrorResponse(StatusBadRequest, "Validation errors", items)))
    case _ => Reply(CoderStatus(v).GetOr(StatusOK), ValueBody(v))
  }

  /** What sendResponse writes, in order. */
  function SendTrace(v: Value): (t: seq<Event<Payload>>)
    ensures |t| == 1 || |t| == 3
  {
    match Derive(v)
    case NoContent => [StatusWritten(StatusNoContent)]
    case Reply(s, p) => [HeaderAdded("Content-Type", "application/json"), StatusWritten(s), BodyEncoded(p)]
  }

  /** sendResponse (response.go:18-54). The encoder's error is ignored. */
  method SendResponse(w: Recorder<Payload>, v: Value)
    modifies w
    ensures w.events == old(w.events) + SendTrace(v)
  {
    if v.Nil? {
      w.WriteHeader(StatusNoContent);
      return;
    }
    var status := StatusOK;
    var body := ValueBody(v);
    if v.ErrorValue? {
      status := StatusInternalServerError;
      var code := Code(v.e);
      if code.Some? {
        status := code.value;
      }
      body := ErrorBody(ErrorResponse(status, Message(v.e), []));
    } else if v.Findings? {
      status := StatusBadRequest;
      body := ErrorBody(ErrorResponse(status, "Validation errors", v.items));
    } else {
      var code := CoderStatus(v);
      if code.Some? {
        status := code.value;
      }
    }
    w.AddHeader("Content-Type", "application/json");
    w.WriteHeader(status);
    w.Encode(body);
  }

  /** handleError (errors.go:15-19): the error goes to SendResponse unchanged. */
  method HandleError(w: Recorder<Payload>, e: Error)
    modifies w
    ensures w.events == old(w.events) + SendTrace(ErrorValue(e))
  {
    SendResponse(w, ErrorValue(e));
  }

  /** The JSON keys of an encoded errorResponse, in field order. */
  function ErrorResponseKeys(r: ErrorResponse): seq<string> {
    ["status", "details"] + (if |r.errors| == 0 then [] else ["errors"])
  }

  /** nil is answered with a bare 204: no Content-Type, no body. */
  lemma NilIsNoContent()
    ensures SendTrace(Nil) == [StatusWritten(204)]
  {
  }

  /** An error is a 500 unless it implements Coder; its body is {status, details}
      with `errors` omitted and details = Error(). */
  lemma ErrorReply(e: Error)
    ensures var s := if Code(e).Some? then Code(e).value else 500;
      SendTrace(ErrorValue(e)) ==
        [HeaderAdded("Content-Type", "application/json"), StatusWritten(s),
         BodyEncoded(ErrorBody(ErrorResponse(s, Message(e), [])))]
  {
  }

  /** Findings are a 400 "Validation errors" carrying the items unchanged. */
  lemma FindingsReply(items: seq<ErrorItem>)
    ensures SendTrace(Findings(items)) ==
      [HeaderAdded("Content-Type", "application/json"), StatusWritten(400),
       BodyEncoded(ErrorBody(ErrorResponse(400, "Validation errors", items)))]
  {
  }

  /** Any other value is encoded as itself, with 200 unless it implements Coder. */
  lemma SuccessReply(v: Value)
    requires !v.Nil? && !v.ErrorValue? && !v.Findings?
    ensures SendTrace(v) ==
      [HeaderAdded("Content-Type", "application/json"),
       StatusWritten(if CoderStatus(v).Some? then CoderStatus(v).value else 200),
       BodyEncoded(ValueBody(v))]
  {
  }

  /** Every send writes exactly one status line. */
  lemma {:induction false} OneStatusPerSend(v: Value)
    ensures StatusCount(SendTrace(v)) == 1
  {
    var t := SendTrace(v);
    if |t| == 3 {
      assert t[1..][1..][1..] == [];
      assert StatusCount(t[2..]) == 0;
    } else {
      assert t[1..] == [];
    }
  }

  /** Whenever an error body is encoded, its status field is the status line written. */
  lemma ErrorBodyStatusAgrees(v: Value, i: nat, j: nat)
    requires i < |SendTrace(v)| && j < |SendTrace(v)|
    requires SendTrace(v)[i].StatusWritten? && SendTrace(v)[j].BodyEncoded?
    requires SendTrace(v)[j].payload.ErrorBody?
    ensures SendTrace(v)[j].payload.r.statusCode == SendTrace(v)[i].code
  {
  }
}
