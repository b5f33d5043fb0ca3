/**
 * Client-side routing support: requests for files (a uri with an extension) go through as they
 * are; every other request is rewritten to the application's root document.
 */
module ClientSideRouting {
  import opened Wrappers
  import Strings
  import opened HandlerChain

  /** What reading `Records[0].cf` of an event without records throws. */
  const NoRecordError: string := "TypeError: Cannot read properties of undefined (reading 'cf')"

  /** `rootURI` made absolute by a leading '/' when it has none. */
  function AbsoluteRootURI(rootURI: string): (u: string)
    ensures |u| > 0 && u[0] == '/'
    ensures Strings.StartsWith(rootURI, "/") ==> u == rootURI
    ensures !Strings.StartsWith(rootURI, "/") ==> u == "/" + rootURI
  {
    if Strings.StartsWith(rootURI, "/") then rootURI else "/" + rootURI
  }

  /** An absolute root is left as it is, so making it absolute twice changes nothing. */
  lemma AbsoluteRootIdempotent(rootURI: string)
    ensures AbsoluteRootURI(AbsoluteRootURI(rootURI)) == AbsoluteRootURI(rootURI)
  {
    var u := AbsoluteRootURI(rootURI);
    assert u[..1] == "/";
  }

  /** s without its trailing '/' characters. */
  function StripTrailingSlashes(s: string): (t: string)
    ensures |t| <= |s| && t == s[..|t|]
    ensures t == "" || t[|t| - 1] != '/'
    ensures forall i :: |t| <= i < |s| ==> s[i] == '/'
    decreases |s|
  {
    if |s| > 0 && s[|s| - 1] == '/' then StripTrailingSlashes(s[..|s| - 1]) else s
  }

  /** The part of s after its last '/', or all of s when it has none. */
  function LastSegment(s: string): (b: string)
    ensures '/' !in b
    ensures |b| <= |s| && b == s[|s| - |b|..]
    ensures |b| < |s| ==> s[|s| - |b| - 1] == '/'
    decreases |s|
  {
    if |s| == 0 || s[|s| - 1] == '/' then "" else LastSegment(s[..|s| - 1]) + [s[|s| - 1]]
  }

  /** The last path segment, trailing slashes ignored (`path.basename`). */
  function Basename(uri: string): string {
    LastSegment(StripTrailingSlashes(uri))
  }

  /**
   * `path.extname(uri)` is non-empty: the last segment has a '.' that is not its first character,
   * and the segment is not "..".
   */
  predicate HasExtension(uri: string) {
    var b := Basename(uri);
    (exists k :: 0 < k < |b| && b[k] == '.') && b != ".."
  }

  /** A uri ending in "/name" has an extension when name has a '.' after its first character. */
  lemma ExtensionOfLastSegment(dir: string, name: string, k: nat)
    requires '/' !in name && 0 < k < |name| && name[k] == '.' && name != ".."
    ensures HasExtension(dir + "/" + name)
  {
    var s := dir + "/" + name;
    assert s[|s| - 1] == name[|name| - 1] != '/';
    assert StripTrailingSlashes(s) == s;
    LastSegmentAfterSlash(dir, name);
    assert Basename(s) == name;
  }

  /** A root document named like a file becomes "/" + its name, and that uri has an extension. */
  lemma AbsoluteFileRootHasExtension(name: string, k: nat)
    requires '/' !in name && 0 < k < |name| && name[k] == '.' && name != ".."
    ensures AbsoluteRootURI(name) == "/" + name
    ensures HasExtension(AbsoluteRootURI(name))
  {
    ExtensionOfLastSegment("", name, k);
    assert "" + "/" + name == "/" + name;
    assert !Strings.StartsWith(name, "/") by { assert name[0] != '/'; }
  }

  lemma {:induction false} LastSegmentAfterSlash(dir: string, name: string)
    requires '/' !in name
    ensures LastSegment(dir + "/" + name) == name
    decreases |name|
  {
    var s := dir + "/" + name;
    if |name| == 0 {
      assert s[|s| - 1] == '/';
    } else {
      var n := |name| - 1;
      assert s[..|s| - 1] == dir + "/" + name[..n];
      assert '/' !in name[..n] by {
        forall i | 0 <= i < n ensures name[..n][i] != '/' { assert name[..n][i] == name[i]; }
      }
      LastSegmentAfterSlash(dir, name[..n]);
      assert name[..n] + [name[n]] == name;
    }
  }

  /** The first record with its request's uri replaced; the config and other fields are kept. */
  function RewriteUri(cf: CfRecord, uri: string): (r: CfRecord)
    ensures r.config == cf.config
    ensures r.request == Request(cf.request.clientIp, cf.request.httpMethod, uri,
                                 cf.request.querystring, cf.request.headers)
  {
    cf.(request := cf.request.(uri := uri))
  }

  /** `clientSideRoutingSupportHandler(rootURI)`. */
  function ClientSideRoutingSupportHandler(rootURI: string): HandlerFactory {
    var absoluteRootURI := AbsoluteRootURI(rootURI);
    (next: Handler) => (event: Event) =>
      if |event.records| == 0 then Err(NoRecordError)
      else if HasExtension(event.records[0].cf.request.uri) then next(event)
      else next(Event([Record(RewriteUri(event.records[0].cf, absoluteRootURI))]))
  }

  /** An event without records fails before next is called. */
  lemma RoutingWithoutRecord(rootURI: string, next: Handler, event: Event)
    requires |event.records| == 0
    ensures ClientSideRoutingSupportHandler(rootURI)(next)(event) == Err(NoRecordError)
  {
  }

  /** A request for a file reaches next as the original event, and next's result is returned. */
  lemma RoutingPassesFiles(rootURI: string, next: Handler, event: Event)
    requires |event.records| > 0 && HasExtension(event.records[0].cf.request.uri)
    ensures ClientSideRoutingSupportHandler(rootURI)(next)(event) == next(event)
  {
  }

  /**
   * Any other request reaches next as an event of exactly one record, the first one, whose
   * request uri is the absolute root and whose other fields are unchanged.
   */
  lemma RoutingRewritesRoutes(rootURI: string, next: Handler, event: Event)
    requires |event.records| > 0 && !HasExtension(event.records[0].cf.request.uri)
    ensures var cf := event.records[0].cf;
      ClientSideRoutingSupportHandler(rootURI)(next)(event)
      == next(Event([Record(CfRecord(cf.config, Request(cf.request.clientIp, cf.request.httpMethod,
                                                        AbsoluteRootURI(rootURI), cf.request.querystring,
                                                        cf.request.headers)))]))
  {
    var cf := event.records[0].cf;
    var rewritten := RewriteUri(cf, AbsoluteRootURI(rootURI));
    assert rewritten == CfRecord(rewritten.config, rewritten.request);
  }

  predicate HasRecord(event: Event) {
    |event.records| > 0
  }

  /** On events with a record, the routing handler always calls next, with an event that has one. */
  lemma RoutingCallsNext(rootURI: string)
    ensures CallsNextOn(ClientSideRoutingSupportHandler(rootURI), HasRecord)
  {
    var f := ClientSideRoutingSupportHandler(rootURI);
    forall next: Handler, e: Event | HasRecord(e)
      ensures exists e' :: HasRecord(e') && f(next)(e) == next(e')
    {
      if HasExtension(e.records[0].cf.request.uri) {
        assert HasRecord(e) && f(next)(e) == next(e);
      } else {
        var e' := Event([Record(RewriteUri(e.records[0].cf, AbsoluteRootURI(rootURI)))]);
        assert HasRecord(e') && f(next)(e) == next(e');
      }
    }
  }

  /** A chain of routing handlers alone returns no result: every event with a record fails. */
  lemma RoutingOnlyChainFails(rootURIs: seq<string>, factories: seq<HandlerFactory>)
    requires |factories| == |rootURIs|
    requires forall i :: 0 <= i < |factories| ==> factories[i] == ClientSideRoutingSupportHandler(rootURIs[i])
    ensures FailsOn(CreateHandlerChain(factories), HasRecord)
  {
    forall i | 0 <= i < |factories| ensures CallsNextOn(factories[i], HasRecord) {
      RoutingCallsNext(rootURIs[i]);
    }
    AllCallNextFails(factories, HasRecord);
  }
}
