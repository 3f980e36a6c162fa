/**
  The request middleware of middleware.go. Whether the process runs on
  Google Compute Engine and the project id the metadata server reports are
  parameters, read once when the middleware is built; the wrapped handler
  `h` is abstract, and serving a request yields the requests `h` is called
  with.
 */
module Middleware {
  import opened Wrappers
  import opened TraceHeaders
  import opened TraceContext
  import Handler

  /** An inbound request: its two trace headers (`""` when absent) and its context. */
  datatype Request = Request(traceparent: string, cloudTraceContext: string, ctx: Context)

  /**
    What `WithCloudTraceContextMiddleware(h)` returns: `h` itself, or the
    tracing handler that captured the project id.
   */
  datatype Wrapped = Unwrapped | Traced(projectID: string)

  /**
    `WithCloudTraceContextMiddleware`: off Compute Engine, or when the
    project id lookup fails, `h` is returned itself; otherwise the tracing
    handler for that project.
   */
  function WithCloudTraceContextMiddleware(onGCE: bool, projectID: Result<string>): (w: Wrapped)
    ensures w.Traced? <==> onGCE && projectID.Success?
    ensures w.Traced? ==> w.projectID == projectID.value
  {
    if !onGCE then Unwrapped
    else match projectID
      case Failure(_) => Unwrapped
      case Success(pid) => Traced(pid)
  }

  const ProjectsPrefix := "projects/"
  const TracesInfix := "/traces/"

  /** `fmt.Sprintf("projects/%s/traces/%s", projectID, traceID)`. */
  function QualifiedTraceID(projectID: string, traceID: string): (q: string)
    ensures q != ""
  {
    ProjectsPrefix + projectID + TracesInfix + traceID
  }

  /** The trace id a qualified id carries for a project, if it is qualified for that project. */
  function UnqualifiedTraceID(projectID: string, qualified: string): Option<string>
  {
    var prefix := ProjectsPrefix + projectID + TracesInfix;
    if |prefix| <= |qualified| && qualified[..|prefix|] == prefix then Some(qualified[|prefix|..]) else None
  }

  /** Qualifying loses nothing: the trace id can be read back, so distinct ids stay distinct. */
  lemma QualifiedRoundTrip(projectID: string, traceID: string)
    ensures UnqualifiedTraceID(projectID, QualifiedTraceID(projectID, traceID)) == Some(traceID)
  {
  }

  /**
    Serving one request: the requests `h` is called with. Without a trace id
    `h` gets the original request; otherwise a request whose context carries
    the qualified trace id with the extracted span id and sampled flag.
   */
  function ServeHTTP(w: Wrapped, req: Request): (calls: seq<Request>)
    ensures |calls| == 1
    ensures calls[0].traceparent == req.traceparent && calls[0].cloudTraceContext == req.cloudTraceContext
  {
    match w
    case Unwrapped => [req]
    case Traced(projectID) =>
      var info := Extract(req.traceparent, req.cloudTraceContext);
      if info.traceID == "" then [req]
      else [req.(ctx := WithTraceContext(req.ctx, QualifiedTraceID(projectID, info.traceID), info.spanID, info.sampled))]
  }

  /**
    Off Compute Engine or without a project id the middleware passes every
    request through untouched: the environment is consulted only when the
    middleware is built.
   */
  lemma PassThrough(onGCE: bool, projectID: Result<string>, req: Request)
    requires !onGCE || projectID.Failure?
    ensures ServeHTTP(WithCloudTraceContextMiddleware(onGCE, projectID), req) == [req]
  {
  }

  /** With no trace id in the headers, `h` is called once with the original request. */
  lemma NoTraceIDServesOriginal(projectID: string, req: Request)
    requires Extract(req.traceparent, req.cloudTraceContext).traceID == ""
    ensures ServeHTTP(Traced(projectID), req) == [req]
  {
  }

  /**
    With a trace id, `h` is called once with a request derived from the
    original one whose context holds the project-qualified trace id and the
    extracted span id and sampled flag unchanged.
   */
  lemma TraceAttached(projectID: string, req: Request)
    requires Extract(req.traceparent, req.cloudTraceContext).traceID != ""
    ensures var info := Extract(req.traceparent, req.cloudTraceContext);
      var calls := ServeHTTP(Traced(projectID), req);
      && calls[0].ctx.WithValue? && calls[0].ctx.parent == req.ctx
      && TraceFromContext(calls[0].ctx) == Some(Trace(QualifiedTraceID(projectID, info.traceID), info.spanID, info.sampled))
  {
  }

  /**
    End to end: a record logged through the enriching handler with the
    context `h` receives carries the project-qualified trace id, the sampled
    flag and the span id the headers gave.
   */
  lemma LoggedRecordCorrelated(projectID: string, req: Request, attrs: seq<Handler.Attr>)
    requires Extract(req.traceparent, req.cloudTraceContext).traceID != ""
    ensures var info := Extract(req.traceparent, req.cloudTraceContext);
      var ctx := ServeHTTP(Traced(projectID), req)[0].ctx;
      Handler.Enrich(attrs, TraceFromContext(ctx))
        == attrs + Handler.CorrelationAttrs(Trace(QualifiedTraceID(projectID, info.traceID), info.spanID, info.sampled))
  {
  }

  /** A context built only by the middleware satisfies the carrier's invariant. */
  lemma ServedContextWellFormed(w: Wrapped, req: Request)
    requires StoredTracesNonEmpty(req.ctx)
    ensures StoredTracesNonEmpty(ServeHTTP(w, req)[0].ctx)
  {
  }
}
