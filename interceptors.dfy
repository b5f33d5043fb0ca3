/**
 * The deployed edge request handler: client-side routing to "index.html" in front of a final
 * handler that returns the (possibly rewritten) request to CloudFront.
 */
module Interceptors {
  import opened Wrappers
  import opened HandlerChain
  import opened ClientSideRouting

  const RootDocument: string := "index.html"

  /** The last handler of the chain: it returns the first record's request and never calls next. */
  function ReturnRequest(): HandlerFactory {
    (next: Handler) => (event: Event) =>
      if |event.records| == 0 then Err(NoRecordError) else Ok(ForwardRequest(event.records[0].cf.request))
  }

  /** The exported `handler`. */
  function IndexHandler(): Handler {
    CreateHandlerChain([ClientSideRoutingSupportHandler(RootDocument), ReturnRequest()])
  }

  /** The chain is the routing handler wrapped around the final one; the default is never reached. */
  lemma IndexHandlerUnfolds()
    ensures IndexHandler() == ClientSideRoutingSupportHandler(RootDocument)(ReturnRequest()(UnimplementedHandler()))
  {
    var fs := [ClientSideRoutingSupportHandler(RootDocument), ReturnRequest()];
    ChainCons(fs);
    ChainCons(fs[1..]);
    assert fs[1..][1..] == [];
  }

  /** The root document served for routes is "/index.html". */
  lemma RootUri()
    ensures AbsoluteRootURI(RootDocument) == "/index.html"
  {
    assert RootDocument[0] != '/';
  }

  /** The root document served for routes has an extension, so rewriting it again changes nothing. */
  lemma RootUriHasExtension()
    ensures HasExtension("/index.html")
  {
    RootUri();
    AbsoluteFileRootHasExtension(RootDocument, 5);
  }

  /** The handler always returns a result: it fails only on an event without records. */
  lemma IndexAlwaysAnswers(event: Event)
    ensures IndexHandler()(event).Err? <==> |event.records| == 0
    ensures IndexHandler()(event) != Err(UnimplementedError)
    ensures IndexHandler()(event).Ok? ==> IndexHandler()(event).value.ForwardRequest?
  {
    IndexHandlerUnfolds();
  }

  /** A request for a file is returned unchanged. */
  lemma IndexKeepsFiles(event: Event)
    requires |event.records| > 0 && HasExtension(event.records[0].cf.request.uri)
    ensures IndexHandler()(event) == Ok(ForwardRequest(event.records[0].cf.request))
  {
    IndexHandlerUnfolds();
  }

  /** Any other request is returned with uri "/index.html" and every other field unchanged. */
  lemma IndexRewritesRoutes(event: Event)
    requires |event.records| > 0 && !HasExtension(event.records[0].cf.request.uri)
    ensures var q := event.records[0].cf.request;
      IndexHandler()(event) == Ok(ForwardRequest(Request(q.clientIp, q.httpMethod, "/index.html",
                                                         q.querystring, q.headers)))
  {
    IndexHandlerUnfolds();
    RootUri();
    RoutingRewritesRoutes(RootDocument, ReturnRequest()(UnimplementedHandler()), event);
  }

  /** Every returned request asks for a file. */
  lemma IndexOutputHasExtension(event: Event)
    requires IndexHandler()(event).Ok?
    ensures IndexHandler()(event).value.ForwardRequest?
    ensures HasExtension(IndexHandler()(event).value.request.uri)
  {
    IndexAlwaysAnswers(event);
    RootUriHasExtension();
    if !HasExtension(event.records[0].cf.request.uri) {
      IndexRewritesRoutes(event);
    } else {
      IndexKeepsFiles(event);
    }
  }

  /** Feeding the returned request back through the handler returns it unchanged. */
  lemma IndexIdempotent(event: Event)
    requires |event.records| > 0
    ensures IndexHandler()(event).Ok? && IndexHandler()(event).value.ForwardRequest?
    ensures var out := IndexHandler()(event).value.request;
      IndexHandler()(Event([Record(CfRecord(event.records[0].cf.config, out))])) == Ok(ForwardRequest(out))
  {
    IndexAlwaysAnswers(event);
    IndexOutputHasExtension(event);
    var out := IndexHandler()(event).value.request;
    IndexKeepsFiles(Event([Record(CfRecord(event.records[0].cf.config, out))]));
  }
}
