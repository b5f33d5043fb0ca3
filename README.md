# CloudFront website infrastructure and edge request handler, modelled in Dafny

This project models the core of a CDK application that deploys a single-page website behind
CloudFront, together with the Lambda@Edge request handler that serves it.

**Infrastructure (definition time).** One synthesis pass is modelled as the class
`Cdk.Deployment`. It holds:

- the stacks and the stage that contains them;
- the construct tree, with each construct keyed by its full path;
- the dependency edges between stacks;
- the parameter store that the deployment will write;
- the registry of singleton custom-resource providers.

CloudFront requires certificates and edge functions to live in `us-east-1`. The facades that
handle this are methods that grow the `Deployment` and return the facade's read-only fields as a
value:

- `EdgeFunction.NewEdgeFunction` builds the edge function facade.
- `CloudFrontCertificate.NewCertificate` builds the DNS-validated certificate facade.

In a stack already in `us-east-1`, each facade creates its resource directly. Otherwise it does
the following:

1. It finds or creates one companion stack in `us-east-1`, in the stage (`CrossRegion.CreateCrossRegionStack`).
2. It creates the real resource there.
3. It stores the resource's ARN under a namespaced parameter name (`CrossRegion.StoreCrossRegionString`).
4. It reads the ARN back from the requester's stack through a reader custom resource (`CrossRegion.GetCrossRegionString`).

The certificate also carries its hosted zone's id into `us-east-1` when the zone lives elsewhere.

`CloudFrontStack.NewCloudFrontStack` models the website stack's constructor. It creates these
constructs:

- the origin bucket;
- the certificate and the A/AAAA records, when a hosted zone is given;
- one edge function per requested event type, named by `normalize`;
- the distribution;
- the asset deployment.

`ImportDir.ImportDirectory` models how a package path is split into a module name and the
segments inside the package.

**Edge handler (request time).** A handler maps a CloudFront request event to a result. A handler
factory wraps the next handler. Promises are modelled as `Ok`/`Err` values.

- `HandlerChain.CreateHandlerChain` is the right fold of factories over a default handler that
  always fails.
- `ClientSideRouting.ClientSideRoutingSupportHandler` rewrites extension-less URIs to the root
  document.
- `OidcHandler.OidcHandler` answers every request itself.
- `Interceptors.IndexHandler` is the exported composition.

Two facts about the facades' order of work shape the contracts:

- The certificate facade, not the function facade, carries an id into `us-east-1`: its hosted
  zone's id, when the zone lives outside that region.
- Each facade adds its own construct before it tests the region. The direct branch is taken only
  for a resolved `us-east-1` region, and an unresolved region fails before any companion stack
  exists.

Every constructor states both directions of its outcome. A footprint function lists, in order,
the construct paths the constructor may add. The constructor adds no path outside it, and it
succeeds whenever those paths are free and the branch's remaining conditions hold (a resolved
region, a stage, a CfnResource default child). The dependency graph stays acyclic under stated
reachability conditions.

The companion stacks are shared by the whole stage and their children have fixed ids. The
certificate is always 'CloudFrontCertificate', and the zone id's reader is always 'ARNReader' and
'CloudFrontCrossRegionHostedZone'. An edge function takes its facade's id. A second facade whose
resource lands on an id already taken in the companion therefore fails with the framework's
duplicate-id error, in the code and in the model alike.

## Model

| member | source | states |
|---|---|---|
| Cdk.Deployment.AddStack | packages/infrastructure/helpers/cross-region.ts:21-22 | A new stack with the given environment joins the stage's children; a second child called id is refused and nothing changes |
| Cdk.Deployment.AddChild | packages/infrastructure/helpers/cross-region.ts:29-32 | A construct is added at parent path + "/" + id; a repeated id under the same parent fails and leaves the tree unchanged |
| Cdk.Deployment.AddDependency | packages/infrastructure/helpers/cross-region.ts:24 | Exactly the edge (a, b) is added to the dependency graph; nothing else changes |
| Cdk.Deployment.PutParameter | packages/infrastructure/helpers/cross-region.ts:28-33 | The deployed parameter writes its value under (region, name) in the store |
| Cdk.Deployment.GetOrCreateProvider | packages/infrastructure/helpers/cross-region.ts:51-59 | The first call for a (stack, resource type) registers the provider with its grant; later calls reuse it unchanged; the service token is the handler's Arn |
| Graph.AddEdgeAcyclic | packages/infrastructure/helpers/cross-region.ts:24 | Adding the dependency a -> b keeps the graph acyclic when a is unreachable from b |
| Graph.AddEdgeCycle | packages/infrastructure/helpers/cross-region.ts:24 | Conversely, if b reaches a then adding a -> b closes a cycle |
| Graph.SinkReachesNothing | packages/infrastructure/helpers/cross-region.ts:21-22 | A freshly created stack, having no dependencies, reaches no other stack |
| Graph.SourceUnreachableAll | packages/infrastructure/constructs/cloud-front-dns-validated-certificate.ts:63-70 | A stack that nothing depends on cannot be reached from any other stack |
| Graph.UnreachableAfterEdge | packages/infrastructure/constructs/cloud-front-dns-validated-certificate.ts:70 | An extra edge x -> y creates no path from u to v when u reached neither v nor x before |
| Graph.ReachesTrans | packages/infrastructure/helpers/cross-region.ts:24 | Dependency paths compose |
| Graph.SplitPath | packages/infrastructure/helpers/cross-region.ts:24 | A path in the graph with one more edge either avoids that edge or passes through it once |
| Strings.JoinSplit | packages/infrastructure/helpers/import-dir.ts:4 | Joining the pieces of `split('/')` with '/' gives back the original string |
| Strings.SplitLength | packages/infrastructure/stacks/cloudfront-stack.ts:123 | The pieces of a split hold every character except the separators |
| Strings.SplitAround | packages/infrastructure/stacks/cloudfront-stack.ts:123 | Splitting at a separator gives the pieces before it followed by the pieces after it |
| CrossRegion.CollapseSlashes | packages/infrastructure/helpers/cross-region.ts:75 | The result has no two consecutive '/', is no longer than the input and keeps its first character |
| CrossRegion.CollapseFixesClean | packages/infrastructure/helpers/cross-region.ts:75 | A string without repeated '/' is left as it is |
| CrossRegion.CollapseIdempotent | packages/infrastructure/helpers/cross-region.ts:75 | Collapsing is idempotent, and a string is its own collapse exactly when it has no repeated '/' |
| CrossRegion.NamespaceParamNameShape | packages/infrastructure/helpers/cross-region.ts:73-76 | Every namespaced name is clean and lies under "/crossRegionParam/"; a clean rooted name is simply prefixed, so distinct ones stay distinct |
| CrossRegion.NamespacedPrefix | packages/infrastructure/helpers/cross-region.ts:73-76 | A clean rooted prefix of a key appears verbatim right after the namespace |
| CrossRegion.NamespaceParamNameStable | packages/infrastructure/helpers/cross-region.ts:73-76 | A namespaced name is already normalised: collapsing it again changes nothing |
| CrossRegion.ParametersGrant | packages/infrastructure/helpers/cross-region.ts:42-48 | The reader's grant is for the region the value is read from |
| CrossRegion.GrantCoversNamespace | packages/infrastructure/helpers/cross-region.ts:42-59 | The "/crossRegionParam/*" grant of a region covers every namespaced name read in that region |
| CrossRegion.CreateCrossRegionStack | packages/infrastructure/helpers/cross-region.ts:12-26 | No stage is an error with nothing changed; otherwise the stage's child stackId is reused, or created in the region with the requester's account; the requester gains a dependency on it; the graph stays acyclic when the reused stack cannot reach the requester |
| CrossRegion.StoreCrossRegionString | packages/infrastructure/helpers/cross-region.ts:28-33 | A 'Parameter' child under the namespaced name, whose value lands in the store under the scope stack's region; a duplicate child fails with nothing changed |
| CrossRegion.GetCrossRegionString | packages/infrastructure/helpers/cross-region.ts:35-71 | The stack's reader provider is registered once with the namespace grant; an 'ARNReader' child reads the namespaced name from the region with the refresh token; the result is its stringValue; the grant covers the name exactly when its region is the read region |
| EdgeFunction.WithCloudFrontRegion | packages/infrastructure/constructs/edge-function.ts:79-92 | The caller's metric options with only the region replaced by us-east-1 |
| EdgeFunction.EdgeFunction.CurrentVersion | packages/infrastructure/constructs/edge-function.ts:46 | The facade is its own current version: same ARN, edge ARN and function |
| EdgeFunction.EdgeFunction.Connections | packages/infrastructure/constructs/edge-function.ts:59-61 | Always an error |
| EdgeFunction.EdgeFunction.LatestVersion | packages/infrastructure/constructs/edge-function.ts:62-64 | Always an error |
| EdgeFunction.EdgeFunction.Metric | packages/infrastructure/constructs/edge-function.ts:78-80 | The underlying function's metric of that name, with the caller's options but region us-east-1 |
| EdgeFunction.EdgeFunction.MetricDuration | packages/infrastructure/constructs/edge-function.ts:81-83 | The Duration metric of the function, in us-east-1 |
| EdgeFunction.EdgeFunction.MetricErrors | packages/infrastructure/constructs/edge-function.ts:84-86 | The Errors metric of the function, in us-east-1 |
| EdgeFunction.EdgeFunction.MetricInvocations | packages/infrastructure/constructs/edge-function.ts:87-89 | The Invocations metric of the function, in us-east-1 |
| EdgeFunction.EdgeFunction.MetricThrottles | packages/infrastructure/constructs/edge-function.ts:90-92 | The Throttles metric of the function, in us-east-1 |
| EdgeFunction.Assemble | packages/infrastructure/constructs/edge-function.ts:38-42 | The function ARN is the edge ARN, and the facade wraps the given function |
| EdgeFunction.NewEdgeFunction | packages/infrastructure/constructs/edge-function.ts:20-44 | In either branch the function construct is built from the caller's props and sits at the facade's lambda path. In us-east-1: a direct 'EdgeFunction' child exposing its current version's edge ARN, with no stack, parameter or provider touched. Unresolved region: an error before any companion exists. Otherwise: the cross-region construction, adding exactly the companion edge, keeping acyclicity, with a fresh companion in us-east-1. Only FunctionFootprint's paths are added, and with those free and CanBuildFunction the construction succeeds; a duplicate id fails with nothing changed |
| EdgeFunction.AddDirectFunction | packages/infrastructure/constructs/edge-function.ts:25-27 | The facade's only new child is 'EdgeFunction', exposing its current version's edge ARN as the function ARN; it succeeds exactly when that id is free, and only the tree changes |
| EdgeFunction.CreateCrossRegionFunction | packages/infrastructure/constructs/edge-function.ts:101-107 | Unresolved region and missing stage errors; the companion 'CloudFrontEdgeFunctionSupportStack' is in the stage, the requester depends on it (the only new edge), and the function built from the props is published there; only CompanionFootprint's paths are added, and with them free, a resolved region, a stage and a CfnResource child it succeeds |
| EdgeFunction.PublishFunction | packages/infrastructure/constructs/edge-function.ts:108-121 | The function built from the props sits in the companion under the facade's id; its edge ARN is stored under "/edgeFunction/<region>/<path>"; a missing CfnResource default child is an error; the facade's reader reads that name from us-east-1 with the logical id as refresh token, and returns the stored ARN; only CompanionFootprint's paths are added, and with them free and a CfnResource child it succeeds |
| CloudFrontCertificate.Certificate.MetricDaysToExpiry | packages/infrastructure/constructs/cloud-front-dns-validated-certificate.ts:48-50 | The real certificate's DaysToExpiry metric with the caller's options unchanged |
| CloudFrontCertificate.ZoneAndCertificateNamesDiffer | packages/infrastructure/constructs/cloud-front-dns-validated-certificate.ts:72-88 | The hosted-zone-id key and the certificate-ARN key never namespace to the same parameter name |
| CloudFrontCertificate.NewCertificate | packages/infrastructure/constructs/cloud-front-dns-validated-certificate.ts:30-46 | Either way the certificate is issued in us-east-1 for the requested domain and zone. In us-east-1: a direct 'CloudFrontCertificate' child whose ARN is exposed, with nothing cross-region. Unresolved region: an error. Otherwise: the cross-region construction, adding exactly CompanionEdges, acyclic under AcyclicPremises, with a fresh companion in us-east-1. Only CertificateFootprint's paths are added, and with those free and CanIssue it succeeds |
| CloudFrontCertificate.AddDirectCertificate | packages/infrastructure/constructs/cloud-front-dns-validated-certificate.ts:35-40 | The facade's only new child is 'CloudFrontCertificate', issued in us-east-1 for the domain and the zone, whose ARN the facade exposes; it succeeds exactly when that id is free, and only the tree changes |
| CloudFrontCertificate.CreateCrossRegionCertificate | packages/infrastructure/constructs/cloud-front-dns-validated-certificate.ts:57-95 | Missing stage is an error with nothing changed; the certificate is in the companion 'CloudFrontCertificateSupportStack'; the new edges are exactly requester -> companion and, for a zone outside us-east-1, companion -> zone's stack; a newly created companion is in us-east-1; only IssueFootprint's paths are added, and with a stage and those paths free it succeeds |
| CloudFrontCertificate.CertificateEdgesAcyclic | packages/infrastructure/constructs/cloud-front-dns-validated-certificate.ts:63-70 | The requester's edge to the companion and the companion's edge to the zone's stack keep the graph acyclic under AcyclicPremises, whether the companion is the stage's existing one or new |
| CloudFrontCertificate.CompanionEdgesAcyclic | packages/infrastructure/constructs/cloud-front-dns-validated-certificate.ts:68-70 | After requester -> companion, the edge companion -> zone keeps acyclicity when the zone's stack reached neither end |
| CloudFrontCertificate.CarryZoneId | packages/infrastructure/constructs/cloud-front-dns-validated-certificate.ts:68-78 | The companion depends on the zone's stack; the zone id is stored in the zone's stack and read back in the companion from the zone's region, and when that region is resolved the reader's value is that id; the imported zone keeps the zone name; only ZoneFootprint's paths are added, and with them free it succeeds |
| CloudFrontCertificate.ImportZone | packages/infrastructure/constructs/cloud-front-dns-validated-certificate.ts:74-77 | The companion's reader from the zone's region, and the zone imported under its original name with the reader's value as id; the rest of the tree is kept, and with the two paths free it succeeds |
| CloudFrontCertificate.IssueInCompanion | packages/infrastructure/constructs/cloud-front-dns-validated-certificate.ts:67-89 | The zone is carried over only when it is outside us-east-1, adding the edge companion -> zone's stack; then the certificate is published in the companion; only IssueFootprint's paths are added, and with them free it succeeds |
| CloudFrontCertificate.PublishCertificate | packages/infrastructure/constructs/cloud-front-dns-validated-certificate.ts:80-94 | The certificate is created in the companion for us-east-1; its ARN is stored under "/cloudFrontCertificate/<region>/<path>"; the facade reads it back from us-east-1 without refresh token; for a companion in us-east-1 the value read is that ARN; only PublishFootprint's paths are added, and with them free it succeeds |
| CloudFrontCertificate.PlaceCertificate | packages/infrastructure/constructs/cloud-front-dns-validated-certificate.ts:80-89 | Exactly two constructs are added, the certificate in the companion and its 'Parameter' holding its ARN, and the store gains exactly that value under the companion's region; with both paths free it succeeds |
| CloudFrontStack.Upper | packages/infrastructure/stacks/cloudfront-stack.ts:123 | ASCII upper-casing: lower-case letters move to upper case, every other character is kept |
| CloudFrontStack.Capitalize | packages/infrastructure/stacks/cloudfront-stack.ts:123 | Same length, first character upper-cased, the rest kept |
| CloudFrontStack.CapitalizeAll | packages/infrastructure/stacks/cloudfront-stack.ts:123 | Each segment capitalised, in order |
| CloudFrontStack.NormalizeHasNoDash | packages/infrastructure/stacks/cloudfront-stack.ts:122-124 | `normalize` removes every '-' |
| CloudFrontStack.NormalizeLength | packages/infrastructure/stacks/cloudfront-stack.ts:122-124 | Only the dashes are dropped: the length shrinks by their number |
| CloudFrontStack.NotKebab | packages/infrastructure/stacks/cloudfront-stack.ts:123 | The empty string, a leading '-', a trailing '-' and "--" have an empty segment, which `normalize` cannot capitalise |
| CloudFrontStack.NormalizeIdempotent | packages/infrastructure/stacks/cloudfront-stack.ts:122-124 | `normalize` accepts its own output and leaves it unchanged |
| CloudFrontStack.NormalizeTwoWords | packages/infrastructure/stacks/cloudfront-stack.ts:122-124 | "a-b" becomes Capitalize(a) + Capitalize(b) |
| CloudFrontStack.EventTypeNormalizes | packages/infrastructure/stacks/cloudfront-stack.ts:87 | Every edge event type is accepted, e.g. "viewer-request" becomes "ViewerRequest" |
| CloudFrontStack.IdCharacters | packages/infrastructure/stacks/cloudfront-stack.ts:87 | For a first word of FirstWordLength (6) letters, the id's characters at InitialAt (right after IdPrefix) and SecondWordThirdAt are that word's upper-cased initial and the second word's third character |
| CloudFrontStack.EdgeFunctionIdShape | packages/infrastructure/stacks/cloudfront-stack.ts:87 | The characters at InitialAt and SecondWordThirdAt of an event type's id are 'O'/'V' and 'q'/'s', by origin/viewer and request/response |
| CloudFrontStack.EdgeFunctionIdInjective | packages/infrastructure/stacks/cloudfront-stack.ts:87 | Distinct event types give distinct ids "CFEdgeFunction<Type>" |
| CloudFrontStack.Attachments | packages/infrastructure/stacks/cloudfront-stack.ts:86-89 | One edge lambda per entry, in order, pairing the entry's event type with its function's current version |
| CloudFrontStack.DomainNames | packages/infrastructure/stacks/cloudfront-stack.ts:82 | The zone name as the only domain name exactly when a zone is given |
| CloudFrontStack.CertificateArn | packages/infrastructure/stacks/cloudfront-stack.ts:81 | The certificate's ARN exactly when a certificate exists |
| CloudFrontStack.EdgeFunctionPaths | packages/infrastructure/stacks/cloudfront-stack.ts:87 | Entry j's edge function sits at stack path + "/CFEdgeFunction" + normalized event type |
| CloudFrontStack.AddEdgeFunction | packages/infrastructure/stacks/cloudfront-stack.ts:87 | A facade at the expected path in the stack and the function construct built from the entry's props; a taken id is an error; only FunctionFootprint's paths are added, and with them free and CanBuildFunction it succeeds; with no edge into the stack, the graph stays acyclic and gains no edge into it |
| CloudFrontStack.PlacedExtend | packages/infrastructure/stacks/cloudfront-stack.ts:86-89 | A facade added at the next entry's free path, with its function built from that entry's props, in a deployment that only grew, extends the placed prefix by one |
| CloudFrontStack.NodesStep | packages/infrastructure/stacks/cloudfront-stack.ts:86-89 | Placing the next entry's facade at its free path, with its function built from that entry's props, adding only its footprint, advances NodesProgress by one entry |
| CloudFrontStack.NodesStepFree | packages/infrastructure/stacks/cloudfront-stack.ts:86-89 | When the whole footprint was free, the next entry's footprint still is |
| CloudFrontStack.NodesStepWithin | packages/infrastructure/stacks/cloudfront-stack.ts:86-89 | What the next entry adds stays within the whole footprint of the entries |
| CloudFrontStack.StepInFootprint | packages/infrastructure/stacks/cloudfront-stack.ts:86-89 | Every entry's footprint lies within the footprint of the entries from any earlier index on |
| CloudFrontStack.PlaceNext | packages/infrastructure/stacks/cloudfront-stack.ts:86-89 | One more entry is placed, its function built from that entry's props, and Progress advances; a failure means the footprint was not all free or the entry's function cannot be built |
| CloudFrontStack.AddEdgeFunctions | packages/infrastructure/stacks/cloudfront-stack.ts:86-89 | One edge function per entry, in order: a facade at the expected path and a function construct built from that entry's props, with pairwise distinct event types; only EdgeFunctionsFootprint's paths are added, and with them free and CanBuildAll every entry succeeds; with no edge into the stack, the graph stays acyclic |
| CloudFrontStack.AddBucketAndCertificate | packages/infrastructure/stacks/cloudfront-stack.ts:38-53 | The 'CFOriginBucket' bucket, and a 'CFCertificate' for the zone's name in us-east-1 exactly when a zone is given; only BucketFootprint's paths are added, and with them free and CanIssue it succeeds; the graph stays acyclic with no edge into the stack |
| CloudFrontStack.AddStackCertificate | packages/infrastructure/stacks/cloudfront-stack.ts:48-52 | The certificate for the zone's name, validated through the zone, issued in us-east-1; only CertificateFootprint's paths are added, and with them free and CanIssue it succeeds; the graph stays acyclic with no edge into the stack |
| CloudFrontStack.CertificatePremisesHold | packages/infrastructure/stacks/cloudfront-stack.ts:36-53 | With no edge into the new stack and the zone apart from the companion, the certificate's acyclicity premises hold |
| CloudFrontStack.CompanionEdgesAvoid | packages/infrastructure/stacks/cloudfront-stack.ts:48-52 | The certificate's dependency edges create no edge into the stack |
| CloudFrontStack.AddDistributionAndRecords | packages/infrastructure/stacks/cloudfront-stack.ts:80-118 | 'CFDistribution' with the certificate ARN, domain names and edge lambdas; A and AAAA records for the zone exactly when one is given; 'CFBucketDeployment' exactly when the assets string is non-empty; only DistributionFootprint's paths are added, and with them free it succeeds |
| CloudFrontStack.AddRecords | packages/infrastructure/stacks/cloudfront-stack.ts:103-108 | The A and AAAA records for the zone's name exactly when a zone is given, at their expected paths; with those free it succeeds |
| CloudFrontStack.AddDeployment | packages/infrastructure/stacks/cloudfront-stack.ts:112-118 | The bucket deployment of the assets exactly when the assets string is non-empty; with its path free it succeeds |
| CloudFrontStack.NewCloudFrontStack | packages/infrastructure/stacks/cloudfront-stack.ts:29-119 | A taken stack id fails with nothing changed; otherwise a new stack in the stage with the given environment, depending on the zone's stack when there is one, holding everything Built lists, including each entry's facade and its function built from that entry's props. Only StackFootprint's paths are added, and with a new id, those paths free and CanBuildStack it succeeds. With acyclic dependencies, an id other than the companions' and the zone unable to reach the certificate companion, the graph stays acyclic |
| CloudFrontStack.DependencyKeepsApart | packages/infrastructure/stacks/cloudfront-stack.ts:36 | The new stack's edge to the zone's stack keeps the graph acyclic, adds no edge into the stack, and keeps the zone unable to reach the certificate companion |
| CloudFrontStack.FillStack | packages/infrastructure/stacks/cloudfront-stack.ts:38-118 | Bucket and certificate, edge functions (facade and function built from that entry's props), then the distribution, records and deployment, as Built lists; only StackFootprint's paths are added, and with them free and CanBuildStack it succeeds; the graph stays acyclic under the stated premises |
| HandlerChain.UnimplementedHandler | packages/lambda-interceptors/src/chainable-handler.ts:7-11 | Fails on every event with the "does not return a result" error |
| HandlerChain.ReduceRightIsNest | packages/lambda-interceptors/src/chainable-handler.ts:16-18 | The right fold equals f0(f1(...fn-1(default))): each factory is applied once, around exactly one default handler |
| HandlerChain.NestSnoc | packages/lambda-interceptors/src/chainable-handler.ts:16-18 | Appending a factory wraps it directly around the innermost handler |
| HandlerChain.EmptyChain | packages/lambda-interceptors/src/chainable-handler.ts:7-18 | An empty chain fails on every event with the default's error |
| HandlerChain.ChainCons | packages/lambda-interceptors/src/chainable-handler.ts:16-18 | The first factory is outermost: chain([f] + rest) == f(chain(rest)) |
| HandlerChain.CallingNextKeepsFailure | packages/lambda-interceptors/src/chainable-handler.ts:7-11 | A handler that only calls next fails wherever next fails |
| HandlerChain.AllCallNextFails | packages/lambda-interceptors/src/chainable-handler.ts:7-18 | If every handler on an event's path calls next, the event ends in the default's error |
| ClientSideRouting.AbsoluteRootURI | packages/lambda-interceptors/src/client-side-routing-support-handler.ts:9 | Always starts with '/'; rootURI if it already does, else "/" + rootURI |
| ClientSideRouting.AbsoluteRootIdempotent | packages/lambda-interceptors/src/client-side-routing-support-handler.ts:9 | Making the root absolute twice is the same as once |
| ClientSideRouting.StripTrailingSlashes | packages/lambda-interceptors/src/client-side-routing-support-handler.ts:17 | A prefix of the uri that does not end in '/', with only '/' dropped |
| ClientSideRouting.LastSegment | packages/lambda-interceptors/src/client-side-routing-support-handler.ts:17 | The suffix after the last '/': it contains no '/' |
| ClientSideRouting.AbsoluteFileRootHasExtension | packages/lambda-interceptors/src/client-side-routing-support-handler.ts:9-17 | A root document named like a file becomes "/" + its name, and that uri has an extension |
| ClientSideRouting.ExtensionOfLastSegment | packages/lambda-interceptors/src/client-side-routing-support-handler.ts:17 | A uri ending in "/name" has an extension when name has a '.' past its first character |
| ClientSideRouting.LastSegmentAfterSlash | packages/lambda-interceptors/src/client-side-routing-support-handler.ts:17 | The last segment of dir + "/" + name is name |
| ClientSideRouting.RewriteUri | packages/lambda-interceptors/src/client-side-routing-support-handler.ts:23-26 | Only the request's uri changes; the config and other request fields are kept |
| ClientSideRouting.RoutingWithoutRecord | packages/lambda-interceptors/src/client-side-routing-support-handler.ts:13 | An event without records fails before next is called |
| ClientSideRouting.RoutingPassesFiles | packages/lambda-interceptors/src/client-side-routing-support-handler.ts:17-19 | A request whose uri has an extension reaches next as the original event; next's result is returned unchanged |
| ClientSideRouting.RoutingRewritesRoutes | packages/lambda-interceptors/src/client-side-routing-support-handler.ts:21-27 | Otherwise next receives exactly one record, the first, with uri set to the absolute root and every other field kept; its result is returned unchanged |
| ClientSideRouting.RoutingCallsNext | packages/lambda-interceptors/src/client-side-routing-support-handler.ts:17-27 | On events with a record, the handler always calls next, with an event that still has a record |
| ClientSideRouting.RoutingOnlyChainFails | packages/lambda-interceptors/src/chainable-handler.ts:7-18 | A chain made only of routing handlers returns no result: it ends in the default's error |
| OidcHandler.OidcHandler | packages/lambda-interceptors/src/oidc-handler.ts:7-14 | Whatever next and the event, the result is the response with status "200" and the configured body |
| OidcHandler.OidcTerminatesChain | packages/lambda-interceptors/src/oidc-handler.ts:8-13 | Placed after handlers that only call next, the OIDC handler answers for the whole chain; the factories after it are never reached |
| Interceptors.IndexHandlerUnfolds | packages/lambda-interceptors/index.ts:4-7 | The handler is the routing handler wrapped around the final one |
| Interceptors.RootUri | packages/lambda-interceptors/index.ts:5 | The root document served for routes is "/index.html" |
| Interceptors.RootUriHasExtension | packages/lambda-interceptors/index.ts:5 | "/index.html" has an extension, so the rewritten request passes the routing handler unchanged |
| Interceptors.IndexAlwaysAnswers | packages/lambda-interceptors/index.ts:4-7 | The default's error is never reached: the handler fails exactly on events without records, and otherwise returns a request |
| Interceptors.IndexKeepsFiles | packages/lambda-interceptors/index.ts:5-6 | A request whose uri has an extension is returned unchanged |
| Interceptors.IndexRewritesRoutes | packages/lambda-interceptors/index.ts:5-6 | Any other request is returned with uri "/index.html" and every other field unchanged |
| Interceptors.IndexOutputHasExtension | packages/lambda-interceptors/index.ts:5-6 | Every returned request's uri has an extension |
| Interceptors.IndexIdempotent | packages/lambda-interceptors/index.ts:5-6 | Feeding the returned request back through the handler returns it unchanged |
| ImportDir.Shift | packages/infrastructure/helpers/import-dir.ts:5 | The removed first element, or undefined for an empty array, and what remains |
| ImportDir.ImportDirectory | packages/infrastructure/helpers/import-dir.ts:3-14 | An empty module name throws the "must be called with a package name" error. Otherwise the result is the package directory of the module name, followed by the remaining segments. It depends on the path only through those two |
| ImportDir.EmptyModuleName | packages/infrastructure/helpers/import-dir.ts:5-7 | The module name is empty exactly when the path is empty or starts with '/' |
| ImportDir.UnscopedNameIsOneSegment | packages/infrastructure/helpers/import-dir.ts:5 | An unscoped module name is the first segment alone, followed by the remaining segments in order |
| ImportDir.ImportPathRoundTrip | packages/infrastructure/helpers/import-dir.ts:4-5 | Unless the path is a bare scope, the module name and the segments joined by '/' give back the path |

## Left out

- The IAM trust statement for edgelambda.amazonaws.com (edge-function.ts:36 and 125-133) is not modelled. It changes a framework role's policy document, which is not part of this model's state.
- CloudFrontCertificate.CarryZoneId: every unresolved region is the single value `Unresolved`, so the model cannot tell the region an env-agnostic zone stack deploys to from the `us-east-1` that its `Aws.REGION` token becomes in the companion. The zone-id read-back is therefore promised only for a zone stack with a resolved region.
- Token machinery is not modelled. Tokens, ARNs, `Lazy` values and `extractQualifierFromArn` are opaque strings built by `Cdk.Attr` and `EdgeFunction.QualifierOf`.
- The Lambda function's `currentVersion.node.defaultChild` is an input to the model (`VersionDefaultChild`; for the website stack, one per entry). It is framework behaviour.
- The delegating members of the edge function facade are not modelled: addAlias, addEventSourceMapping, addPermission, addToRolePolicy, grantInvoke, addEventSource and configureAsyncInvoke, plus the fields functionName, grantPrincipal, permissionsNode and `node.defaultChild`. Each forwards to the underlying framework function unchanged.
- The framework's own checks in `addDependency` (self-dependency, cycles, cross-stage) are not modelled. Acyclicity is proved instead, under stated reachability preconditions.
- `CrossRegion.GetCrossRegionString`: the provider grant is fixed by the first read in a stack, as in the framework. A later read in the same stack from another region keeps the first region's grant, and the contract states exactly when the grant covers the read.
- Grant coverage is checked by region and resource name only; the account part of the ARN is not modelled.
- Reader custom resources run at deployment time. The round trip is stated as a store lookup (`Cdk.Deployment.ReadValue`), not as an execution.
- The website stack is modelled only as a child of a stage. A stack outside any stage, which makes `createCrossRegionStack` fail, exists only as input state, through `Cdk.Deployment.AddStandaloneStack`.
- CloudWatch metrics are only the request: the target, the metric name and the options with the region override.
- Distribution details are kept opaque: price class, viewer protocol policy, the S3 origin and its access identity. So are the record TTL and the alias target, and the bucket's removal policy.
- `CloudFrontCertificate.CertificateProps` keeps only `domainName` and `hostedZone`. The other `DnsValidatedCertificateProps` fields the code spreads into the certificate (cloud-front-dns-validated-certificate.ts:36-39 and 80-84) are not modelled; the website stack passes only those two.
- `toUpperCase` in `normalize` is modelled for ASCII only.
- `path.extname` is modelled by Node's POSIX rule: the extension is non-empty exactly when the last segment (trailing slashes ignored) has a '.' after its first character and is not "..".
- `path.join` in import-dir.ts is modelled as plain joining with '/', without normalisation.
- `require.resolve` and `dirname` are the `packageDir` parameter of `ImportDir.ImportDirectory`. lib/resolve-package.ts is not part of this model.
- Lambda handler `context` and `callback` are dropped, and promises are synchronous `Ok`/`Err` results.
- The response handlers the CloudFront types allow are not modelled: only request events are.
- The entry points and declarations (bin/, config/, lib/cloudfront-stack.ts, lib/hosted-zone-stack.ts, stacks/hosted-zone-stack.ts) and the tests are not part of this model.
