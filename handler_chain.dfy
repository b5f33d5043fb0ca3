/**
 * CloudFront Lambda@Edge request events and chainable handlers. A handler maps an event to a
 * result; a handler factory wraps the next handler of the chain. Asynchronous results are
 * modelled as synchronous values: Ok for a resolved promise, Err for a rejection or a throw.
 */
module HandlerChain {
  import opened Wrappers

  /** The request of a CloudFront event (its `method` field is httpMethod here); headers as (name, value) pairs. */
  datatype Request = Request(clientIp: string, httpMethod: string, uri: string, querystring: string,
                             headers: seq<(string, string)>)

  /** The distribution configuration carried by every CloudFront record. */
  datatype Config = Config(distributionDomainName: string, distributionId: string, eventType: string,
                           requestId: string)

  datatype CfRecord = CfRecord(config: Config, request: Request)

  datatype Record = Record(cf: CfRecord)

  datatype Event = Event(records: seq<Record>)

  /** What a request handler produces: the (possibly rewritten) request, or a generated response. */
  datatype Output = ForwardRequest(request: Request) | Response(status: string, body: string)

  type Handler = Event -> Result<Output>

  type HandlerFactory = Handler -> Handler

  const UnimplementedError: string :=
    "The handler chain contains a code path which does not return a result -- instead, `next` is "
    + "called by every handler in the chain. For every event, there must be a handler which returns a result."

  /** Every event fails with the unimplemented error. */
  ghost predicate AlwaysUnimplemented(h: Handler) {
    forall e :: h(e) == Err(UnimplementedError)
  }

  /** The default handler at the end of every chain. */
  function UnimplementedHandler(): (h: Handler)
    ensures AlwaysUnimplemented(h)
  {
    (e: Event) => Err(UnimplementedError)
  }

  /** `factories.reduceRight((next, f) => f(next), init)`: the last factory is applied first. */
  function ReduceRight(factories: seq<HandlerFactory>, init: Handler): Handler
    decreases |factories|
  {
    if |factories| == 0 then init
    else ReduceRight(factories[..|factories| - 1], factories[|factories| - 1](init))
  }

  /** `createHandlerChain(factories)`. */
  function CreateHandlerChain(factories: seq<HandlerFactory>): Handler {
    ReduceRight(factories, UnimplementedHandler())
  }

  /** factories[0](factories[1](... factories[n-1](inner))): each factory wraps the rest, once. */
  function Nest(factories: seq<HandlerFactory>, inner: Handler): Handler
    decreases |factories|
  {
    if |factories| == 0 then inner else factories[0](Nest(factories[1..], inner))
  }

  /** The right fold is the nesting in list order: the first factory is outermost. */
  lemma {:induction false} ReduceRightIsNest(factories: seq<HandlerFactory>, init: Handler)
    ensures ReduceRight(factories, init) == Nest(factories, init)
    decreases |factories|
  {
    var n := |factories|;
    if n > 0 {
      ReduceRightIsNest(factories[..n - 1], factories[n - 1](init));
      NestSnoc(factories[..n - 1], factories[n - 1], init);
      assert factories[..n - 1] + [factories[n - 1]] == factories;
    }
  }

  /** Nesting a list with f at its end is nesting the list around f(inner). */
  lemma {:induction false} NestSnoc(factories: seq<HandlerFactory>, f: HandlerFactory, inner: Handler)
    ensures Nest(factories + [f], inner) == Nest(factories, f(inner))
    decreases |factories|
  {
    if |factories| == 0 {
      assert [f][1..] == [];
    } else {
      assert (factories + [f])[1..] == factories[1..] + [f];
      NestSnoc(factories[1..], f, inner);
    }
  }

  /** An empty chain is the default handler: it fails for every event. */
  lemma EmptyChain()
    ensures AlwaysUnimplemented(CreateHandlerChain([]))
  {
  }

  /** The first factory is outermost and wraps the chain of the rest. */
  lemma ChainCons(factories: seq<HandlerFactory>)
    requires |factories| > 0
    ensures CreateHandlerChain(factories) == factories[0](CreateHandlerChain(factories[1..]))
  {
    ReduceRightIsNest(factories, UnimplementedHandler());
    ReduceRightIsNest(factories[1..], UnimplementedHandler());
  }

  /**
   * On events satisfying p, the handlers f builds always hand to next an event that still
   * satisfies p, and return what next returns.
   */
  ghost predicate CallsNextOn(f: HandlerFactory, p: Event -> bool) {
    forall next: Handler, e: Event {:trigger f(next)(e)} :: p(e) ==> exists e' :: p(e') && f(next)(e) == next(e')
  }

  /** Every event satisfying p fails with the unimplemented error. */
  ghost predicate FailsOn(h: Handler, p: Event -> bool) {
    forall e :: p(e) ==> h(e) == Err(UnimplementedError)
  }

  /** A handler that only calls next fails with the default's error whenever next does. */
  lemma CallingNextKeepsFailure(f: HandlerFactory, p: Event -> bool, next: Handler)
    requires CallsNextOn(f, p) && FailsOn(next, p)
    ensures FailsOn(f(next), p)
  {
    forall e | p(e) ensures f(next)(e) == Err(UnimplementedError) {
      var e' :| p(e') && f(next)(e) == next(e');
    }
  }

  /** If every handler on an event's path calls next, the event reaches the default's error. */
  lemma {:induction false} AllCallNextFails(factories: seq<HandlerFactory>, p: Event -> bool)
    requires forall i :: 0 <= i < |factories| ==> CallsNextOn(factories[i], p)
    ensures FailsOn(CreateHandlerChain(factories), p)
    decreases |factories|
  {
    if |factories| > 0 {
      var first, others := factories[0], factories[1..];
      ChainCons(factories);
      assert forall i :: 0 <= i < |others| ==> others[i] == factories[i + 1];
      AllCallNextFails(others, p);
      CallingNextKeepsFailure(first, p, CreateHandlerChain(others));
    }
  }
}
