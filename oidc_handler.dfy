/** The OIDC handler: answers every request itself with a fixed document. */
module OidcHandler {
  import opened Wrappers
  import opened HandlerChain

  const OkStatus: string := "200"

  predicate AnyEvent(e: Event) {
    true
  }

  /** `oidcHandler(body)`: the response it returns, whatever the event and whatever next is. */
  function OidcHandler(body: string): (f: HandlerFactory)
    ensures forall next: Handler, e: Event :: f(next)(e) == Ok(Response(OkStatus, body))
  {
    var response := Response(OkStatus, body);
    (next: Handler) => (e: Event) => Ok(response)
  }

  /**
   * Wherever it sits in a chain, the handler ends it: the factories after it are never reached,
   * and the chain answers every event with status 200 and the configured body.
   */
  lemma {:induction false} OidcTerminatesChain(before: seq<HandlerFactory>, body: string,
                                               after: seq<HandlerFactory>, e: Event)
    requires forall i :: 0 <= i < |before| ==> CallsNextOn(before[i], AnyEvent)
    ensures CreateHandlerChain(before + [OidcHandler(body)] + after)(e) == Ok(Response(OkStatus, body))
    decreases |before|
  {
    var fs := before + [OidcHandler(body)] + after;
    ChainCons(fs);
    if |before| == 0 {
      assert fs[0] == OidcHandler(body);
    } else {
      assert fs[1..] == before[1..] + [OidcHandler(body)] + after;
      assert fs[0] == before[0];
      var rest := CreateHandlerChain(fs[1..]);
      assert CallsNextOn(before[0], AnyEvent);
      var e' :| before[0](rest)(e) == rest(e');
      forall i | 0 <= i < |before[1..]| ensures CallsNextOn(before[1..][i], AnyEvent) {
        assert before[1..][i] == before[i + 1];
      }
      OidcTerminatesChain(before[1..], body, after, e');
    }
  }
}
