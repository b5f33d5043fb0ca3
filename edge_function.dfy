/**
 * The EdgeFunction facade (constructs/edge-function.ts): a Lambda@Edge function that lives in
 * us-east-1 whatever the region of the stack that declares it.
 */
module EdgeFunction {
  import opened Wrappers
  import opened Cdk
  import opened CrossRegion
  import Graph

  const FunctionSupportStackId: string := "CloudFrontEdgeFunctionSupportStack"
  const UnresolvedRegionError: string := "Stacks which use EdgeFunction must have an explicitly set region."
  const NoCfnResourceError: string := "Lambda@Edge function current version did not create a CfnResource."
  const ConnectionsError: string := "Lambda@Edge does not support connections"
  const LatestVersionError: string := "$LATEST function version cannot be used for Lambda@Edge"

  /** What the framework reports as the default child of the function's current version. */
  datatype VersionDefaultChild = NoDefaultChild | NotCfnResource | CfnResource(logicalId: string)

  /** `{ ...props, region: CLOUDFRONT_REGION }`. */
  function WithCloudFrontRegion(props: Option<MetricOptions>): (o: MetricOptions)
    ensures o.region == Some(CloudFrontRegion)
    ensures props.Some? ==> o == props.value.(region := Some(CloudFrontRegion))
    ensures props.None? ==> o == MetricOptions(None, None, None, None, Some(CloudFrontRegion))
  {
    match props
    case None => MetricOptions(None, None, None, None, Some(CloudFrontRegion))
    case Some(p) => p.(region := Some(CloudFrontRegion))
  }

  /** The token for the version qualifier taken from an ARN (`extractQualifierFromArn`). */
  function QualifierOf(arn: string): string {
    "${Fn::Select[7,Fn::Split[:," + arn + "]]}"
  }

  /** The edge ARN of the current version of the function at `path`. */
  function CurrentVersionEdgeArn(functionPath: string): string {
    Attr(ChildPath(functionPath, "CurrentVersion"), "edgeArn")
  }

  /** The parameter key of the function's edge ARN: `/edgeFunction/<region>/<construct path>`. */
  function EdgeArnKey(region: string, path: string): string {
    "/edgeFunction/" + region + "/" + path
  }

  /** The facade's readonly fields once constructed. */
  datatype EdgeFunction = EdgeFunction(path: string, stack: StackId, lambda: Scope,
                                       edgeArn: string, functionArn: string,
                                       functionName: string, version: string)
  {
    /** `currentVersion`: the facade is its own current version, so its ARN is the edge ARN. */
    function CurrentVersion(): (v: EdgeFunction)
      ensures v.functionArn == functionArn && v.edgeArn == edgeArn && v.lambda == lambda
    {
      this
    }

    /** `connections` always throws. */
    function Connections(): (r: Result<()>)
      ensures r.Err?
    {
      Err(ConnectionsError)
    }

    /** `latestVersion` always throws. */
    function LatestVersion(): (r: Result<EdgeFunction>)
      ensures r.Err?
    {
      Err(LatestVersionError)
    }

    /** `metric`: the metric of the underlying function, always in us-east-1. */
    function Metric(metricName: string, props: Option<MetricOptions>): (m: MetricRequest)
      ensures m.target == lambda.path && m.metricName == metricName
      ensures m.options.Some? && m.options.value.region == Some(CloudFrontRegion)
      ensures props.Some? ==> m.options == Some(props.value.(region := Some(CloudFrontRegion)))
    {
      MetricRequest(lambda.path, metricName, Some(WithCloudFrontRegion(props)))
    }

    function MetricDuration(props: Option<MetricOptions>): (m: MetricRequest)
      ensures m.target == lambda.path && m.metricName == "Duration"
      ensures m.options.Some? && m.options.value.region == Some(CloudFrontRegion)
      ensures props.Some? ==> m.options == Some(props.value.(region := Some(CloudFrontRegion)))
    {
      MetricRequest(lambda.path, "Duration", Some(WithCloudFrontRegion(props)))
    }

    function MetricErrors(props: Option<MetricOptions>): (m: MetricRequest)
      ensures m.target == lambda.path && m.metricName == "Errors"
      ensures m.options.Some? && m.options.value.region == Some(CloudFrontRegion)
      ensures props.Some? ==> m.options == Some(props.value.(region := Some(CloudFrontRegion)))
    {
      MetricRequest(lambda.path, "Errors", Some(WithCloudFrontRegion(props)))
    }

    function MetricInvocations(props: Option<MetricOptions>): (m: MetricRequest)
      ensures m.target == lambda.path && m.metricName == "Invocations"
      ensures m.options.Some? && m.options.value.region == Some(CloudFrontRegion)
      ensures props.Some? ==> m.options == Some(props.value.(region := Some(CloudFrontRegion)))
    {
      MetricRequest(lambda.path, "Invocations", Some(WithCloudFrontRegion(props)))
    }

    function MetricThrottles(props: Option<MetricOptions>): (m: MetricRequest)
      ensures m.target == lambda.path && m.metricName == "Throttles"
      ensures m.options.Some? && m.options.value.region == Some(CloudFrontRegion)
      ensures props.Some? ==> m.options == Some(props.value.(region := Some(CloudFrontRegion)))
    {
      MetricRequest(lambda.path, "Throttles", Some(WithCloudFrontRegion(props)))
    }
  }

  /** The facade built from the function construct and the edge ARN it exposes. */
  function Assemble(path: string, stack: StackId, lambda: Scope, edgeArn: string): (f: EdgeFunction)
    ensures f.functionArn == f.edgeArn == edgeArn && f.lambda == lambda
  {
    EdgeFunction(path, stack, lambda, edgeArn, edgeArn, Attr(lambda.path, "functionName"), QualifierOf(edgeArn))
  }

  /**
   * The paths the cross-region branch adds, in order: the function (with the facade's id) in the
   * companion at `companionPath`, its parameter, and the facade's reader.
   */
  function CompanionFootprint(selfPath: string, companionPath: string, id: string): (ps: seq<string>)
    ensures |ps| == 3
  {
    var fn := ChildPath(companionPath, id);
    [fn, ChildPath(fn, "Parameter"), ChildPath(selfPath, "ARNReader")]
  }

  /**
   * The paths the constructor adds for facade `id` under `scopePath`, in order: the facade, then
   * the direct 'EdgeFunction' child, or the companion's function and the facade's reader.
   */
  function FunctionFootprint(scopePath: string, id: string, region: Region): (ps: seq<string>)
    ensures |ps| > 0 && ps[0] == ChildPath(scopePath, id)
  {
    var self := ChildPath(scopePath, id);
    if InCloudFrontRegion(region) then [self, ChildPath(self, "EdgeFunction")]
    else [self] + CompanionFootprint(self, FunctionSupportStackId, id)
  }

  /**
   * Besides free paths, what construction needs: a stack in us-east-1, or a resolved region, a
   * stage for the companion, and a current version whose default child is a CfnResource.
   */
  predicate CanBuildFunction(region: Region, inStage: bool, versionChild: VersionDefaultChild) {
    InCloudFrontRegion(region) || (region.Resolved? && inStage && versionChild.CfnResource?)
  }

  /**
   * The constructor. In a stack whose region is resolved to us-east-1 the function is a direct
   * child 'EdgeFunction'. Otherwise (createCrossRegionFunction) an unresolved region fails; the
   * function is created (with the facade's id) in the stage's companion stack, its edge ARN is
   * stored under EdgeArnKey from the function, and read back from us-east-1 by the facade with the
   * current version's logical id as refresh token.
   */
  method NewEdgeFunction(d: Deployment, scope: Scope, id: string, props: FunctionProps,
                         versionChild: VersionDefaultChild)
    returns (r: Result<EdgeFunction>)
    requires d.Valid() && ReaderGrants(d) && scope.stack in d.stacks
    modifies d
    ensures d.Valid() && ReaderGrants(d)
    ensures ChildPath(scope.path, id) in old(d.nodes) ==> r.Err? && unchanged(d)
    ensures r.Ok? ==> r.value.path == ChildPath(scope.path, id) && r.value.stack == scope.stack
    ensures r.Ok? ==> r.value.functionArn == r.value.edgeArn
    ensures Extends(old(d.stage), d.stage) && Extends(old(d.stacks), d.stacks) && Extends(old(d.nodes), d.nodes) && old(d.deps) <= d.deps
    ensures r.Ok? ==> r.value.path in d.nodes && d.nodes[r.value.path] == Construct(scope.stack, Facade)
    // in either branch the function construct is built from the caller's props
    ensures r.Ok? ==> r.value.lambda.path in d.nodes && d.nodes[r.value.lambda.path] == Construct(r.value.lambda.stack, LambdaFunction(props))
    // only the footprint's paths are added; free paths and CanBuild make construction succeed
    ensures AddedWithin(old(d.nodes), d.nodes, FunctionFootprint(scope.path, id, old(d.RegionOf(scope.stack))))
    ensures (&& FreshPaths(old(d.nodes), FunctionFootprint(scope.path, id, old(d.RegionOf(scope.stack))))
             && CanBuildFunction(old(d.RegionOf(scope.stack)), old(d.InStage(scope.stack)), versionChild)) ==> r.Ok?
    // direct branch: nothing cross-region is created
    ensures InCloudFrontRegion(old(d.RegionOf(scope.stack))) ==>
      && d.stacks == old(d.stacks) && d.stage == old(d.stage) && d.deps == old(d.deps)
      && d.parameters == old(d.parameters) && d.providers == old(d.providers)
      && (r.Ok? ==>
            && r.value.lambda == Scope(scope.stack, ChildPath(ChildPath(scope.path, id), "EdgeFunction"))
            && r.value.edgeArn == CurrentVersionEdgeArn(r.value.lambda.path))
    // unresolved region: fails before any companion stack exists
    ensures old(d.RegionOf(scope.stack)).Unresolved? ==>
      && d.stacks == old(d.stacks) && d.stage == old(d.stage) && d.deps == old(d.deps)
      && d.parameters == old(d.parameters) && d.providers == old(d.providers)
      && (ChildPath(scope.path, id) !in old(d.nodes) ==> r == Err(UnresolvedRegionError))
    // cross-region branch
    ensures old(d.RegionOf(scope.stack)).Resolved? && !InCloudFrontRegion(old(d.RegionOf(scope.stack))) ==>
      && (ChildPath(scope.path, id) !in old(d.nodes) && !old(d.InStage(scope.stack)) ==> r == Err(NoStageError))
      && (r.Ok? ==> EdgeFunctionCrossRegion(d, Scope(scope.stack, ChildPath(scope.path, id)), id,
                                            old(d.RegionOf(scope.stack)).name, props, versionChild, r.value))
      && (r.Ok? ==> d.deps == old(d.deps) + {(scope.stack, r.value.lambda.stack)})
      && (r.Ok? && Graph.Acyclic(old(d.deps))
          && (FunctionSupportStackId in old(d.stage) ==> Graph.Unreachable(old(d.deps), old(d.stage[FunctionSupportStackId]), scope.stack))
          ==> Graph.Acyclic(d.deps))
      && (r.Ok? && FunctionSupportStackId !in old(d.stage) ==> d.RegionOf(r.value.lambda.stack) == Resolved(CloudFrontRegion))
    ensures r.Ok? && !InCloudFrontRegion(old(d.RegionOf(scope.stack))) ==> versionChild.CfnResource?
  {
    ghost var nodes0 := d.nodes;
    var self :- d.AddChild(scope, id, Facade);
    ghost var nodes1 := d.nodes;
    var region := d.RegionOf(scope.stack);
    if InCloudFrontRegion(region) {
      ghost var fp := FunctionFootprint(scope.path, id, region);
      assert fp == [self.path, ChildPath(self.path, "EdgeFunction")];
      assert FreshPaths(nodes0, fp) ==> fp[1] !in nodes1;
      r := AddDirectFunction(d, self, props);
      assert AddedWithin(nodes0, d.nodes, fp);
      return;
    }
    ghost var rest := CompanionFootprint(self.path, FunctionSupportStackId, id);
    assert FunctionFootprint(scope.path, id, region) == [self.path] + rest;
    if FreshPaths(nodes0, [self.path] + rest) {
      FreshRest(nodes0, nodes1, [self.path], rest);
    }
    var created := CreateCrossRegionFunction(d, self, id, props, versionChild);
    AddedTrans(nodes0, nodes1, d.nodes, [self.path], rest);
    if created.Err? {
      return Err(created.error);
    }
    r := Ok(Assemble(self.path, scope.stack, created.value.0, created.value.1));
  }

  /** The direct branch: the function is the facade's child 'EdgeFunction', exposing its current version's edge ARN. */
  method AddDirectFunction(d: Deployment, self: Scope, props: FunctionProps) returns (r: Result<EdgeFunction>)
    requires d.Valid() && self.stack in d.stacks && self.path in d.nodes
    modifies d
    ensures d.Valid()
    ensures d.stacks == old(d.stacks) && d.stage == old(d.stage) && d.deps == old(d.deps)
    ensures d.parameters == old(d.parameters) && d.providers == old(d.providers)
    ensures r.Ok? <==> ChildPath(self.path, "EdgeFunction") !in old(d.nodes)
    ensures r.Err? ==> d.nodes == old(d.nodes)
    ensures r.Ok? ==>
      && d.nodes == old(d.nodes)[ChildPath(self.path, "EdgeFunction") := Construct(self.stack, LambdaFunction(props))]
      && r.value.path == self.path && r.value.stack == self.stack && r.value.functionArn == r.value.edgeArn
      && r.value.lambda == Scope(self.stack, ChildPath(self.path, "EdgeFunction"))
      && r.value.edgeArn == CurrentVersionEdgeArn(r.value.lambda.path)
  {
    var lambda :- d.AddChild(self, "EdgeFunction", LambdaFunction(props));
    r := Ok(Assemble(self.path, self.stack, lambda, CurrentVersionEdgeArn(lambda.path)));
  }

  /**
   * `createCrossRegionFunction`: an unresolved region fails before any companion exists;
   * otherwise the function is published through the stage's companion stack in us-east-1.
   * Returns the function and the edge ARN read back.
   */
  method CreateCrossRegionFunction(d: Deployment, self: Scope, id: string, props: FunctionProps,
                                   versionChild: VersionDefaultChild)
    returns (r: Result<(Scope, string)>)
    requires d.Valid() && ReaderGrants(d) && self.stack in d.stacks
    modifies d
    ensures d.Valid() && ReaderGrants(d)
    ensures Extends(old(d.stage), d.stage) && Extends(old(d.stacks), d.stacks) && Extends(old(d.nodes), d.nodes) && old(d.deps) <= d.deps
    ensures old(d.RegionOf(self.stack)).Unresolved? ==> r == Err(UnresolvedRegionError) && unchanged(d)
    ensures old(d.RegionOf(self.stack)).Resolved? && !old(d.InStage(self.stack)) ==> r == Err(NoStageError)
    ensures r.Ok? ==>
      && old(d.RegionOf(self.stack)).Resolved?
      && FunctionSupportStackId in d.stage && d.stage[FunctionSupportStackId] == r.value.0.stack
      && (self.stack, r.value.0.stack) in d.deps
      && FunctionInCompanion(d, self, id, old(d.RegionOf(self.stack)).name, props, versionChild, r.value.0, r.value.1)
    ensures r.Ok? && Graph.Acyclic(old(d.deps))
            && (FunctionSupportStackId in old(d.stage) ==> Graph.Unreachable(old(d.deps), old(d.stage[FunctionSupportStackId]), self.stack))
            ==> Graph.Acyclic(d.deps)
    ensures r.Ok? && FunctionSupportStackId !in old(d.stage) ==> d.RegionOf(r.value.0.stack) == Resolved(CloudFrontRegion)
    ensures r.Ok? ==> d.deps == old(d.deps) + {(self.stack, r.value.0.stack)}
    ensures AddedWithin(old(d.nodes), d.nodes, CompanionFootprint(self.path, FunctionSupportStackId, id))
    ensures (&& old(d.RegionOf(self.stack)).Resolved? && old(d.InStage(self.stack)) && versionChild.CfnResource?
             && FreshPaths(old(d.nodes), CompanionFootprint(self.path, FunctionSupportStackId, id))) ==> r.Ok?
  {
    var region := d.RegionOf(self.stack);
    if region.Unresolved? {
      return Err(UnresolvedRegionError);
    }
    var companion :- CreateCrossRegionStack(d, self, CloudFrontRegion, FunctionSupportStackId);
    assert d.stacks[companion].path == FunctionSupportStackId;
    r := PublishFunction(d, self, id, region.name, companion, props, versionChild);
  }

  /**
   * The function (with the facade's id) in the companion, its edge ARN stored from the function
   * under EdgeArnKey, and read back by the facade from us-east-1 with the current version's
   * logical id as refresh token; fails when that version has no CfnResource default child.
   */
  method PublishFunction(d: Deployment, self: Scope, id: string, region: string, companion: StackId,
                         props: FunctionProps, versionChild: VersionDefaultChild)
    returns (r: Result<(Scope, string)>)
    requires d.Valid() && ReaderGrants(d) && self.stack in d.stacks && companion in d.stacks
    modifies d
    ensures d.Valid() && ReaderGrants(d)
    ensures d.stacks == old(d.stacks) && d.stage == old(d.stage) && d.deps == old(d.deps)
    ensures Extends(old(d.nodes), d.nodes)
    ensures r.Ok? ==> r.value.0.stack == companion
                      && FunctionInCompanion(d, self, id, region, props, versionChild, r.value.0, r.value.1)
    ensures AddedWithin(old(d.nodes), d.nodes, CompanionFootprint(self.path, d.stacks[companion].path, id))
    ensures versionChild.CfnResource? && FreshPaths(old(d.nodes), CompanionFootprint(self.path, d.stacks[companion].path, id))
            ==> r.Ok?
  {
    ghost var fp := CompanionFootprint(self.path, d.stacks[companion].path, id);
    ghost var free := FreshPaths(d.nodes, fp);
    assert free ==> fp[0] !in d.nodes && fp[1] != fp[0] && fp[2] != fp[0] && fp[2] != fp[1];
    var fn :- d.AddChild(d.StackScope(companion), id, LambdaFunction(props));
    assert fn.path == fp[0] && ChildPath(fn.path, "Parameter") == fp[1];
    ghost var built := d.nodes;
    var key := EdgeArnKey(region, self.path);
    var stored :- StoreCrossRegionString(d, fn, key, CurrentVersionEdgeArn(fn.path));
    if !versionChild.CfnResource? {
      return Err(NoCfnResourceError);
    }
    var edgeArn :- GetCrossRegionString(d, self, key, Resolved(CloudFrontRegion), Some(versionChild.logicalId));
    assert fn.path in built && d.nodes[fn.path] == built[fn.path];
    r := Ok((fn, edgeArn));
  }

  /**
   * The function `fn`, built from `props`, in its companion stack under the facade's id; its edge ARN stored under the
   * namespaced key by the function; the facade's reader reading that same name from us-east-1
   * with the refresh token; and `edgeArn` the reader's value.
   */
  ghost predicate FunctionInCompanion(d: Deployment, self: Scope, id: string, region: string, props: FunctionProps,
                                      versionChild: VersionDefaultChild, fn: Scope, edgeArn: string)
    reads d
  {
    var name := NamespaceParamName(EdgeArnKey(region, self.path));
    var readerPath := ChildPath(self.path, "ARNReader");
    var companion := fn.stack;
    && companion in d.stacks
    && fn.path == ChildPath(d.stacks[companion].path, id)
    && fn.path in d.nodes && d.nodes[fn.path] == Construct(companion, LambdaFunction(props))
    && versionChild.CfnResource?
    && ChildPath(fn.path, "Parameter") in d.nodes
    && d.nodes[ChildPath(fn.path, "Parameter")]
         == Construct(companion, StringParameter(name, CurrentVersionEdgeArn(fn.path)))
    && (d.RegionOf(companion), name) in d.parameters
    && d.parameters[(d.RegionOf(companion), name)] == CurrentVersionEdgeArn(fn.path)
    && readerPath in d.nodes && d.nodes[readerPath].stack == self.stack
    && d.nodes[readerPath].kind.CrossRegionReader?
    && d.nodes[readerPath].kind.region == Resolved(CloudFrontRegion)
    && d.nodes[readerPath].kind.parameterName == name
    && d.nodes[readerPath].kind.refreshToken == Some(versionChild.logicalId)
    && edgeArn == Attr(readerPath, "stringValue")
    && (d.RegionOf(companion) == Resolved(CloudFrontRegion) ==>
          d.ReadValue(readerPath) == Some(CurrentVersionEdgeArn(fn.path)))
  }

  /**
   * What a successful cross-region construction leaves behind: the function in the stage's
   * companion stack, which the requester depends on, published as FunctionInCompanion says.
   */
  ghost predicate EdgeFunctionCrossRegion(d: Deployment, self: Scope, id: string, region: string, props: FunctionProps,
                                          versionChild: VersionDefaultChild, f: EdgeFunction)
    reads d
  {
    && FunctionSupportStackId in d.stage && d.stage[FunctionSupportStackId] == f.lambda.stack
    && (self.stack, f.lambda.stack) in d.deps
    && FunctionInCompanion(d, self, id, region, props, versionChild, f.lambda, f.edgeArn)
  }
}
