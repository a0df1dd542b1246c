/** The slice of net/http the adapter touches: a request whose body is a
    closable stream, and a response writer reduced to the ordered trace of
    what was written to it (header additions, the status line, one encoded
    body). Transport and server plumbing are not part of the model. */
module Http {
  import opened Wrappers
  import opened Reflect

  type byte = bv8

  const StatusOK := 200
  const StatusNoContent := 204
  const StatusBadRequest := 400
  const StatusNotFound := 404
  const StatusMethodNotAllowed := 405
  const StatusInternalServerError := 500

  /** A request body stream. `closed` records that Close was called; a body
      made by io.NopCloser (`nop`) ignores Close and stays readable. */
  class Body {
    var data: seq<byte>
    var failing: bool
    var nop: bool
    var closed: bool

    constructor (data: seq<byte>, failing: bool)
      ensures this.data == data && this.failing == failing && !nop && !closed
    {
      this.data := data;
      this.failing := failing;
      this.nop := false;
      this.closed := false;
    }

    /** io.NopCloser(bytes.NewBuffer(b)): an in-memory body holding exactly b. */
    constructor Buffer(b: seq<byte>)
      ensures data == b && !failing && nop && !closed
    {
      data := b;
      failing := false;
      nop := true;
      closed := false;
    }

    /** Whether a read can succeed: no I/O failure, and not read after a real Close. */
    predicate Readable()
      reads this
    {
      !failing && (nop || !closed)
    }

    /** io.ReadAll: everything left in the stream, or a failure that consumes nothing. */
    method ReadAll() returns (r: Option<seq<byte>>)
      modifies this
      ensures old(Readable()) ==> r == Some(old(data)) && data == []
      ensures !old(Readable()) ==> r == None && data == old(data)
      ensures failing == old(failing) && nop == old(nop) && closed == old(closed)
    {
      if Readable() {
        r := Some(data);
        data := [];
      } else {
        r := None;
      }
    }

    method Close()
      modifies this
      ensures closed && data == old(data) && failing == old(failing) && nop == old(nop)
    {
      closed := true;
    }
  }

  /** An incoming request. Only the body is replaced in place (by a validator
      that buffers it); the rest is fixed for the request's lifetime.
      `ctxType` is the dynamic type of req.Context(), and `routeVars` is what
      the router extracted from the path. */
  class Request {
    const httpMethod: string
    const path: string
    const ctxType: GoType
    const routeVars: map<string, string>
    var body: Body

    constructor (httpMethod: string, path: string, ctxType: GoType, routeVars: map<string, string>, body: Body)
      ensures this.httpMethod == httpMethod && this.path == path && this.ctxType == ctxType
      ensures this.routeVars == routeVars && this.body == body
    {
      this.httpMethod := httpMethod;
      this.path := path;
      this.ctxType := ctxType;
      this.routeVars := routeVars;
      this.body := body;
    }
  }

  /** What a validator or resolver can observe of a request at a given moment. */
  datatype RequestView = RequestView(
    httpMethod: string,
    path: string,
    ctxType: GoType,
    routeVars: map<string, string>,
    body: seq<byte>,
    readable: bool)

  function View(req: Request): (v: RequestView)
    reads req, req.body
    ensures v.body == req.body.data && v.readable == req.body.Readable()
  {
    RequestView(req.httpMethod, req.path, req.ctxType, req.routeVars, req.body.data, req.body.Readable())
  }

  /** One thing written to an http.ResponseWriter, in order. */
  datatype Event<P> =
    | HeaderAdded(name: string, value: string)
    | StatusWritten(code: int)
    | BodyEncoded(payload: P)

  /** A response writer that records what is written to it. */
  class Recorder<P> {
    var events: seq<Event<P>>

    constructor ()
      ensures events == []
    {
      events := [];
    }

    /** w.Header().Add(name, value) */
    method AddHeader(name: string, value: string)
      modifies this
      ensures events == old(events) + [HeaderAdded(name, value)]
    {
      events := events + [HeaderAdded(name, value)];
    }

    /** w.WriteHeader(code) */
    method WriteHeader(code: int)
      modifies this
      ensures events == old(events) + [StatusWritten(code)]
    {
      events := events + [StatusWritten(code)];
    }

    /** json.NewEncoder(w).Encode(payload), when encoding succeeds. */
    method Encode(payload: P)
      modifies this
      ensures events == old(events) + [BodyEncoded(payload)]
    {
      events := events + [BodyEncoded(payload)];
    }
  }

  /** The number of status lines in a trace. */
  function StatusCount<P>(trace: seq<Event<P>>): nat {
    if trace == [] then 0
    else (if trace[0].StatusWritten? then 1 else 0) + StatusCount(trace[1..])
  }
}
