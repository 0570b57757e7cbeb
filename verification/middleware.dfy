/**
 * `ApiLoggingMiddleware`: tags the request and the response with the request id and hands
 * every request to the logging service exactly once, whether the rest of the pipeline
 * returns a response or throws.
 */
module Middleware {
  import opened Wrappers
  import opened JsonValue
  import opened LoggingService

  /** How the rest of the pipeline (`$next($request)`) ends. */
  datatype Outcome = Returned(response: Response) | Threw(thrown: Thrown)

  /** `$headers->set('X-Request-ID', $id)`: the header bag stores the lower-case name with the one value. */
  function WithRequestId(headers: map<string, seq<string>>, id: string): (r: map<string, seq<string>>)
    ensures Header(r, "x-request-id") == Some(id)
    ensures r.Keys == headers.Keys + {"x-request-id"}
    ensures forall k :: k in headers && k != "x-request-id" ==> r[k] == headers[k]
  {
    headers["x-request-id" := [id]]
  }

  /** The request the pipeline and the service see. */
  function TaggedRequest(request: Request, id: string): (r: Request)
    ensures Header(r.headers, "x-request-id") == Some(id)
    ensures r.(headers := request.headers) == request
  {
    request.(headers := WithRequestId(request.headers, id))
  }

  /** The response the middleware returns. */
  function TaggedResponse(response: Response, id: string): (r: Response)
    ensures Header(r.headers, "x-request-id") == Some(id)
    ensures r.status == response.status && r.content == response.content
  {
    response.(headers := WithRequestId(response.headers, id))
  }

  /**
   * A request that already carried an id keeps it: the service adopts the inbound
   * `X-Request-ID`, so the middleware writes back the value that was there.
   */
  lemma InboundIdKept(request: Request, id: string)
    requires "x-request-id" in request.headers && request.headers["x-request-id"] == [id]
    ensures TaggedRequest(request, id) == request
  {
    assert WithRequestId(request.headers, id) == request.headers;
  }

  class ApiLoggingMiddleware {
    const service: ApiLoggingService

    constructor(service: ApiLoggingService)
      ensures this.service == service
    {
      this.service := service;
    }

    /**
     * `handle`: tag the request, run the rest of the pipeline, log the outcome, and either
     * return the response tagged with the same id or rethrow what was thrown.
     */
    method Handle(request: Request, next: Request -> Outcome, env: Environment, decode: string -> Option<Json>)
      returns (outcome: Outcome)
      modifies service, service.table, service.logger
      ensures var id := service.requestId;
              var inner := next(TaggedRequest(request, id));
              && (inner.Returned? ==>
                    && outcome == Returned(TaggedResponse(inner.response, id))
                    && service.logged == old(service.logged) + [(Some(inner.response), None)])
              && (inner.Threw? ==>
                    && outcome == inner
                    && service.logged == old(service.logged) + [(None, Some(inner.thrown))])
      ensures var id := service.requestId;
              var tagged := TaggedRequest(request, id);
              var inner := next(tagged);
              var response := if inner.Returned? then Some(inner.response) else None;
              var thrown := if inner.Threw? then Some(inner.thrown) else None;
              && (env.encodedInput.EncodeFailed? ==> service.table.rows == old(service.table.rows))
              && (env.encodedInput.Encoded? ==>
                    var d := BuildLogData(id, tagged, response, thrown, env, decode, AnalysisOf(tagged, env, old(service.table.rows)));
                    service.table.rows == old(service.table.rows) + StoredRows(service.config, d, env))
    {
      var id := service.requestId;
      var tagged := TaggedRequest(request, id);
      var inner := next(tagged);
      match inner
      case Returned(response) =>
        service.LogRequest(tagged, Some(response), None, env, decode);
        return Returned(TaggedResponse(response, id));
      case Threw(thrown) =>
        service.LogRequest(tagged, None, Some(thrown), env, decode);
        return inner;
    }
  }
}
