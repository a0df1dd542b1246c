/** static_handlers.go: the 404 and 405 handlers, each an apiError built
    from the request's method and path and handed to HandleError. */
module StaticHandlersA {
  import opened Wrappers
  import opened Http
  import opened ErrorsA
  import opened ResponseA

  /** The apiError of NotFoundHandler (static_handlers.go:8-13). */
  function NotFoundError(httpMethod: string, path: string): (e: Error)
    ensures Code(e) == Some(StatusNotFound) && Unwrap(e).None?
    ensures Message(e) == "No handler found for " + httpMethod + " " + path
  {
    ApiError(StatusNotFound, "No handler found for " + httpMethod + " " + path, None)
  }

  /** The apiError of MethodNotAllowedHandler (static_handlers.go:15-20). */
  function MethodNotAllowedError(httpMethod: string, path: string): (e: Error)
    ensures Code(e) == Some(StatusMethodNotAllowed) && Unwrap(e).None?
    ensures Message(e) == "Method not allowed for " + httpMethod + " " + path
  {
    ApiError(StatusMethodNotAllowed, "Method not allowed for " + httpMethod + " " + path, None)
  }

  method NotFoundHandler(w: Recorder<Payload>, req: Request)
    modifies w
    ensures w.events == old(w.events) + SendTrace(ErrorValue(NotFoundError(req.httpMethod, req.path)))
  {
    HandleError(w, NotFoundError(req.httpMethod, req.path));
  }

  method MethodNotAllowedHandler(w: Recorder<Payload>, req: Request)
    modifies w
    ensures w.events == old(w.events) + SendTrace(ErrorValue(MethodNotAllowedError(req.httpMethod, req.path)))
  {
    HandleError(w, MethodNotAllowedError(req.httpMethod, req.path));
  }

  /** The 404 reply: status 404 on the line and in the body, whose only keys
      are "status" and "details", and which names the method and the path. */
  lemma NotFoundReply(httpMethod: string, path: string)
    ensures var body := ErrorResponse(404, "No handler found for " + httpMethod + " " + path, []);
      SendTrace(ErrorValue(NotFoundError(httpMethod, path))) ==
        [HeaderAdded("Content-Type", "application/json"), StatusWritten(404), BodyEncoded(ErrorBody(body))] &&
      ErrorResponseKeys(body) == ["status", "details"]
  {
  }

  /** The 405 reply, in the same shape. */
  lemma MethodNotAllowedReply(httpMethod: string, path: string)
    ensures var body := ErrorResponse(405, "Method not allowed for " + httpMethod + " " + path, []);
      SendTrace(ErrorValue(MethodNotAllowedError(httpMethod, path))) ==
        [HeaderAdded("Content-Type", "application/json"), StatusWritten(405), BodyEncoded(ErrorBody(body))] &&
      ErrorResponseKeys(body) == ["status", "details"]
  {
  }
}
