/** gmux/handlers.go: the 404 and 405 handlers of the gorilla/mux flavour,
    each an ApiError carrying the request's method and path in Meta, sent by
    Defaults.SendResponse. */
module GmuxHandlers {
  import opened Wrappers
  import opened Http
  import opened JsonApi
  import Defaults

  /** The ApiError of NotFoundHandler (gmux/handlers.go:8-17). */
  function NotFoundError(httpMethod: string, path: string): (a: ApiError)
    ensures a.statusCode == StatusNotFound && a.kind == "Not Found" && a.details == "Handler not found for request"
    ensures a.meta.Keys == {"method", "path"} && a.meta["method"] == httpMethod && a.meta["path"] == path
    ensures a.errors == [] && a.sourceErr.None?
  {
    ApiError(StatusNotFound, "Not Found", "Handler not found for request", [], map["method" := httpMethod, "path" := path], None)
  }

  /** The ApiError of MethodNotAllowedHandler (gmux/handlers.go:22-32). */
  function MethodNotAllowedError(httpMethod: string, path: string): (a: ApiError)
    ensures a.statusCode == StatusMethodNotAllowed && a.kind == "Method Not Allowed"
    ensures a.details == "Method not allowed for request"
    ensures a.meta.Keys == {"method", "path"} && a.meta["method"] == httpMethod && a.meta["path"] == path
    ensures a.errors == [] && a.sourceErr.None?
  {
    ApiError(StatusMethodNotAllowed, "Method Not Allowed", "Method not allowed for request", [],
             map["method" := httpMethod, "path" := path], None)
  }

  /** NotFoundHandler (gmux/handlers.go:8-18): the 404 ApiError, sent; an
      encoding failure is SendResponse's panic, which the handler does not
      recover. */
  method NotFoundHandler(w: Recorder<Value>, req: Request, encode: Defaults.Encoder) returns (panicked: Option<Value>)
    modifies w
    ensures w.events == old(w.events) + Defaults.SendTrace(ErrValue(Api(NotFoundError(req.httpMethod, req.path))), encode)
    ensures panicked.Some? <==> encode(ErrValue(Api(NotFoundError(req.httpMethod, req.path)))).Some?
    ensures panicked.Some? ==> panicked.value == ErrValue(encode(ErrValue(Api(NotFoundError(req.httpMethod, req.path)))).value)
  {
    panicked := Defaults.SendResponse(w, ErrValue(Api(NotFoundError(req.httpMethod, req.path))), encode);
  }

  /** MethodNotAllowedHandler (gmux/handlers.go:20-33): the 405 ApiError, sent
      the same way. */
  method MethodNotAllowedHandler(w: Recorder<Value>, req: Request, encode: Defaults.Encoder) returns (panicked: Option<Value>)
    modifies w
    ensures w.events == old(w.events) + Defaults.SendTrace(ErrValue(Api(MethodNotAllowedError(req.httpMethod, req.path))), encode)
    ensures panicked.Some? <==> encode(ErrValue(Api(MethodNotAllowedError(req.httpMethod, req.path)))).Some?
    ensures panicked.Some? ==> panicked.value == ErrValue(encode(ErrValue(Api(MethodNotAllowedError(req.httpMethod, req.path)))).value)
  {
    panicked := Defaults.SendResponse(w, ErrValue(Api(MethodNotAllowedError(req.httpMethod, req.path))), encode);
  }

  /** Both replies put their own status on the status line (the ApiError
      reports it), and their JSON object has the keys status, kind, details
      and meta, with no errors. */
  lemma StaticReplies(httpMethod: string, path: string, encode: Defaults.Encoder)
    ensures var a := NotFoundError(httpMethod, path);
      Defaults.SendTrace(ErrValue(Api(a)), encode)[..2] ==
        [HeaderAdded("Content-Type", "application/json"), StatusWritten(404)] &&
      JsonKeys(a) == ["status", "kind", "details", "meta"]
    ensures var a := MethodNotAllowedError(httpMethod, path);
      Defaults.SendTrace(ErrValue(Api(a)), encode)[..2] ==
        [HeaderAdded("Content-Type", "application/json"), StatusWritten(405)] &&
      JsonKeys(a) == ["status", "kind", "details", "meta"]
  {
  }
}
