/**
 * The CloudFrontDnsValidatedCertificate facade (constructs/cloud-front-dns-validated-certificate.ts):
 * a DNS-validated certificate that CloudFront can use, so always issued in us-east-1.
 */
module CloudFrontCertificate {
  import opened Wrappers
  import opened Strings
  import opened Cdk
  import opened CrossRegion
  import Graph

  const SupportStackId: string := "CloudFrontCertificateSupportStack"
  const UnresolvedRegionError: string :=
    "Stacks which use CloudFrontDnsValidatedCertificates must have an explicitly set region."

  /** A hosted zone: the stack that holds it, its construct path, its id and its name. */
  datatype HostedZone = HostedZone(stack: StackId, path: string, hostedZoneId: string, zoneName: string)

  datatype CertificateProps = CertificateProps(domainName: string, hostedZone: HostedZone)

  /** The facade's fields once constructed. */
  datatype Certificate = Certificate(path: string, stack: StackId, certificate: Scope, certificateArn: string)
  {
    /** `metricDaysToExpiry`: delegated to the real certificate with the caller's options as given. */
    function MetricDaysToExpiry(props: Option<MetricOptions>): (m: MetricRequest)
      ensures m.target == certificate.path && m.metricName == "DaysToExpiry" && m.options == props
    {
      MetricRequest(certificate.path, "DaysToExpiry", props)
    }
  }

  /** The certificate ARN token of the certificate at `path`. */
  function CertificateArnOf(path: string): string {
    Attr(path, "certificateArn")
  }

  function ZoneIdKey(region: string, path: string): string {
    "/cloudFrontHostedZone/" + region + "/" + path
  }

  function CertificateArnKey(region: string, path: string): string {
    "/cloudFrontCertificate/" + region + "/" + path
  }

  /** The zone id and the certificate ARN are never stored under the same name. */
  lemma ZoneAndCertificateNamesDiffer(r1: string, p1: string, r2: string, p2: string)
    ensures NamespaceParamName(ZoneIdKey(r1, p1)) != NamespaceParamName(CertificateArnKey(r2, p2))
  {
    var z, c := "/cloudFrontHostedZone/", "/cloudFrontCertificate/";
    assert NoRepeatedSlash(z) && NoRepeatedSlash(c);
    assert ZoneIdKey(r1, p1) == z + (r1 + "/" + p1);
    assert CertificateArnKey(r2, p2) == c + (r2 + "/" + p2);
    NamespacedPrefix(z, r1 + "/" + p1);
    NamespacedPrefix(c, r2 + "/" + p2);
    var k := |ParameterNamespace| + 11;
    assert (ParameterNamespace + z)[k] == 'H';
    assert (ParameterNamespace + c)[k] == 'C';
  }

  /**
   * The paths carrying the zone id adds, in order: its parameter in the zone's stack, the
   * companion's reader and the zone imported into the companion.
   */
  function ZoneFootprint(companionPath: string, zonePath: string): (ps: seq<string>)
    ensures |ps| == 3
  {
    [ChildPath(zonePath, "Parameter"), ChildPath(companionPath, "ARNReader"),
     ChildPath(companionPath, "CloudFrontCrossRegionHostedZone")]
  }

  /** The paths publishing the certificate adds, in order: the certificate, its parameter, the facade's reader. */
  function PublishFootprint(selfPath: string, companionPath: string): (ps: seq<string>)
    ensures |ps| == 3
  {
    var cert := ChildPath(companionPath, "CloudFrontCertificate");
    [cert, ChildPath(cert, "Parameter"), ChildPath(selfPath, "ARNReader")]
  }

  /** The paths issuing in the companion adds: the zone id's when the zone is outside us-east-1, then the certificate's. */
  function IssueFootprint(selfPath: string, companionPath: string, zonePath: string, zoneRegion: Region): seq<string> {
    (if InCloudFrontRegion(zoneRegion) then [] else ZoneFootprint(companionPath, zonePath))
    + PublishFootprint(selfPath, companionPath)
  }

  /**
   * The paths the constructor adds for facade `id` under `scopePath`, in order: the facade, then
   * the direct 'CloudFrontCertificate' child, or what issuing in the stage's companion adds.
   */
  function CertificateFootprint(scopePath: string, id: string, region: Region, zonePath: string,
                                zoneRegion: Region): (ps: seq<string>)
    ensures |ps| > 0 && ps[0] == ChildPath(scopePath, id)
  {
    var self := ChildPath(scopePath, id);
    if InCloudFrontRegion(region) then [self, ChildPath(self, "CloudFrontCertificate")]
    else [self] + IssueFootprint(self, SupportStackId, zonePath, zoneRegion)
  }

  /** Besides free paths, what construction needs: a stack in us-east-1, or a resolved region and a stage. */
  predicate CanIssue(region: Region, inStage: bool) {
    InCloudFrontRegion(region) || (region.Resolved? && inStage)
  }

  /**
   * The constructor. In a stack whose region is resolved to us-east-1 the certificate is a direct
   * child 'CloudFrontCertificate'; an unresolved region fails; otherwise the certificate is
   * created across regions.
   */
  method NewCertificate(d: Deployment, scope: Scope, id: string, props: CertificateProps)
    returns (r: Result<Certificate>)
    requires d.Valid() && ReaderGrants(d) && scope.stack in d.stacks && props.hostedZone.stack in d.stacks
    modifies d
    ensures d.Valid() && ReaderGrants(d)
    ensures ChildPath(scope.path, id) in old(d.nodes) ==> r.Err? && unchanged(d)
    ensures r.Ok? ==> r.value.path == ChildPath(scope.path, id) && r.value.stack == scope.stack
    ensures Extends(old(d.stage), d.stage) && Extends(old(d.stacks), d.stacks) && Extends(old(d.nodes), d.nodes) && old(d.deps) <= d.deps
    ensures r.Ok? ==> r.value.path in d.nodes && d.nodes[r.value.path] == Construct(scope.stack, Facade)
    // only the footprint's paths are added; free paths and CanIssue make construction succeed
    ensures AddedWithin(old(d.nodes), d.nodes,
                        CertificateFootprint(scope.path, id, old(d.RegionOf(scope.stack)),
                                             old(d.stacks[props.hostedZone.stack].path), old(d.RegionOf(props.hostedZone.stack))))
    ensures (&& FreshPaths(old(d.nodes), CertificateFootprint(scope.path, id, old(d.RegionOf(scope.stack)),
                                                            old(d.stacks[props.hostedZone.stack].path),
                                                            old(d.RegionOf(props.hostedZone.stack))))
             && CanIssue(old(d.RegionOf(scope.stack)), old(d.InStage(scope.stack)))) ==> r.Ok?
    // in both branches the certificate is issued in us-east-1 for the requested domain and zone name
    ensures r.Ok? ==>
      && r.value.certificate.path in d.nodes
      && d.nodes[r.value.certificate.path].kind.DnsValidatedCertificate?
      && d.nodes[r.value.certificate.path].kind.certificateRegion == CloudFrontRegion
      && d.nodes[r.value.certificate.path].kind.domainName == props.domainName
      && d.nodes[r.value.certificate.path].kind.zoneName == props.hostedZone.zoneName
    // direct branch: nothing cross-region is created
    ensures InCloudFrontRegion(old(d.RegionOf(scope.stack))) ==>
      && d.stacks == old(d.stacks) && d.stage == old(d.stage) && d.deps == old(d.deps)
      && d.parameters == old(d.parameters) && d.providers == old(d.providers)
      && (r.Ok? ==>
            && r.value.certificate == Scope(scope.stack, ChildPath(ChildPath(scope.path, id), "CloudFrontCertificate"))
            && d.nodes[r.value.certificate.path].kind.hostedZoneId == props.hostedZone.hostedZoneId
            && r.value.certificateArn == CertificateArnOf(r.value.certificate.path))
    // unresolved region: fails before any companion stack exists
    ensures old(d.RegionOf(scope.stack)).Unresolved? ==>
      && d.stacks == old(d.stacks) && d.stage == old(d.stage) && d.deps == old(d.deps)
      && d.parameters == old(d.parameters) && d.providers == old(d.providers)
      && (ChildPath(scope.path, id) !in old(d.nodes) ==> r == Err(UnresolvedRegionError))
    // cross-region branch
    ensures old(d.RegionOf(scope.stack)).Resolved? && !InCloudFrontRegion(old(d.RegionOf(scope.stack))) ==>
      && (ChildPath(scope.path, id) !in old(d.nodes) && !old(d.InStage(scope.stack)) ==> r == Err(NoStageError))
      && (r.Ok? ==> CertificateCrossRegion(d, Scope(scope.stack, ChildPath(scope.path, id)),
                                           old(d.RegionOf(scope.stack)).name, props, r.value))
      && (r.Ok? ==> d.deps == old(d.deps) + CompanionEdges(scope.stack, r.value.certificate.stack, props.hostedZone.stack,
                                                           old(d.RegionOf(props.hostedZone.stack))))
      && (r.Ok? && AcyclicPremises(old(d.deps), old(d.stage), scope.stack, props.hostedZone.stack) ==> Graph.Acyclic(d.deps))
      && (r.Ok? && SupportStackId !in old(d.stage) ==> d.RegionOf(r.value.certificate.stack) == Resolved(CloudFrontRegion))
  {
    ghost var nodes0 := d.nodes;
    var self :- d.AddChild(scope, id, Facade);
    ghost var nodes1 := d.nodes;
    var region := d.RegionOf(scope.stack);
    var zone := props.hostedZone;
    ghost var fp := CertificateFootprint(scope.path, id, region, d.stacks[zone.stack].path, d.RegionOf(zone.stack));
    if InCloudFrontRegion(region) {
      assert fp == [self.path, ChildPath(self.path, "CloudFrontCertificate")];
      assert FreshPaths(nodes0, fp) ==> fp[1] !in nodes1;
      r := AddDirectCertificate(d, self, props);
      assert AddedWithin(nodes0, d.nodes, fp);
      return;
    }
    if region.Unresolved? {
      return Err(UnresolvedRegionError);
    }
    ghost var rest := IssueFootprint(self.path, SupportStackId, d.stacks[zone.stack].path, d.RegionOf(zone.stack));
    assert fp == [self.path] + rest;
    if FreshPaths(nodes0, fp) {
      FreshRest(nodes0, nodes1, [self.path], rest);
    }
    ghost var deps0, stacks0, stage0 := d.deps, d.stacks, d.stage;
    r := CreateCrossRegionCertificate(d, self, region.name, props);
    AddedTrans(nodes0, nodes1, d.nodes, [self.path], rest);
    if r.Ok? && AcyclicPremises(deps0, stage0, scope.stack, zone.stack) {
      CertificateEdgesAcyclic(deps0, stacks0, stage0, scope.stack, r.value.certificate.stack, zone.stack, d.RegionOf(zone.stack));
    }
  }

  /** The direct branch: the certificate is the facade's child 'CloudFrontCertificate', issued in us-east-1. */
  method AddDirectCertificate(d: Deployment, self: Scope, props: CertificateProps) returns (r: Result<Certificate>)
    requires d.Valid() && self.stack in d.stacks && self.path in d.nodes
    modifies d
    ensures d.Valid()
    ensures d.stacks == old(d.stacks) && d.stage == old(d.stage) && d.deps == old(d.deps)
    ensures d.parameters == old(d.parameters) && d.providers == old(d.providers)
    ensures r.Ok? <==> ChildPath(self.path, "CloudFrontCertificate") !in old(d.nodes)
    ensures r.Err? ==> d.nodes == old(d.nodes)
    ensures r.Ok? ==>
      && r.value == Certificate(self.path, self.stack, Scope(self.stack, ChildPath(self.path, "CloudFrontCertificate")),
                                CertificateArnOf(ChildPath(self.path, "CloudFrontCertificate")))
      && d.nodes == old(d.nodes)[ChildPath(self.path, "CloudFrontCertificate") :=
           Construct(self.stack, DnsValidatedCertificate(props.domainName, props.hostedZone.hostedZoneId,
                                                         props.hostedZone.zoneName, CloudFrontRegion))]
  {
    var zone := props.hostedZone;
    var cert :- d.AddChild(self, "CloudFrontCertificate",
                           DnsValidatedCertificate(props.domainName, zone.hostedZoneId, zone.zoneName, CloudFrontRegion));
    r := Ok(Certificate(self.path, self.stack, cert, CertificateArnOf(cert.path)));
  }

  /**
   * The edges issuing in the companion adds: from the requester to the companion, and from the
   * companion to the zone's stack when the zone is outside us-east-1.
   */
  function CompanionEdges(requester: StackId, companion: StackId, zone: StackId, zoneRegion: Region): Graph.Edges {
    {(requester, companion)} + (if InCloudFrontRegion(zoneRegion) then {} else {(companion, zone)})
  }

  /**
   * The graph stays acyclic when it was, the zone's stack cannot reach the requester, and an
   * existing companion can neither reach the requester nor be reached from the zone's stack.
   */
  ghost predicate AcyclicPremises(deps: Graph.Edges, stage: map<string, StackId>, requester: StackId, zone: StackId) {
    && Graph.Acyclic(deps)
    && Graph.Unreachable(deps, zone, requester)
    && (SupportStackId in stage ==>
          && Graph.Unreachable(deps, stage[SupportStackId], requester)
          && Graph.Unreachable(deps, zone, stage[SupportStackId]))
  }

  /**
   * `createCrossRegionCertificate`: the certificate is created in the stage's companion stack in
   * us-east-1, which the requester depends on; when the zone is not in us-east-1 the companion
   * also depends on the zone's stack. The dependency graph stays acyclic when neither the zone's
   * stack nor an existing companion can reach the requester, and the zone cannot reach the companion.
   */
  method CreateCrossRegionCertificate(d: Deployment, self: Scope, region: string, props: CertificateProps)
    returns (r: Result<Certificate>)
    requires d.Valid() && ReaderGrants(d) && self.stack in d.stacks && props.hostedZone.stack in d.stacks
    modifies d
    ensures d.Valid() && ReaderGrants(d)
    ensures !old(d.InStage(self.stack)) ==> r == Err(NoStageError) && unchanged(d)
    ensures Extends(old(d.stage), d.stage) && Extends(old(d.stacks), d.stacks) && Extends(old(d.nodes), d.nodes) && old(d.deps) <= d.deps
    ensures r.Ok? ==> r.value.path == self.path && r.value.stack == self.stack
    ensures r.Ok? ==> CertificateCrossRegion(d, self, region, props, r.value)
    ensures r.Ok? ==>
      d.deps == old(d.deps) + CompanionEdges(self.stack, r.value.certificate.stack, props.hostedZone.stack,
                                             old(d.RegionOf(props.hostedZone.stack)))
    ensures r.Ok? && SupportStackId !in old(d.stage) ==>
      r.value.certificate.stack !in old(d.stacks) && d.RegionOf(r.value.certificate.stack) == Resolved(CloudFrontRegion)
    ensures AddedWithin(old(d.nodes), d.nodes, IssueFootprint(self.path, SupportStackId, old(d.stacks[props.hostedZone.stack].path),
                                                              old(d.RegionOf(props.hostedZone.stack))))
    ensures (&& old(d.InStage(self.stack))
             && FreshPaths(old(d.nodes), IssueFootprint(self.path, SupportStackId, old(d.stacks[props.hostedZone.stack].path),
                                                        old(d.RegionOf(props.hostedZone.stack))))) ==> r.Ok?
  {
    var zone := props.hostedZone;
    ghost var deps0 := d.deps;
    ghost var zonePath, zoneRegion := d.stacks[zone.stack].path, d.RegionOf(zone.stack);
    var companion :- CreateCrossRegionStack(d, self, CloudFrontRegion, SupportStackId);
    assert d.stacks[zone.stack].path == zonePath && d.RegionOf(zone.stack) == zoneRegion;
    r := IssueInCompanion(d, self, region, companion, props);
    assert d.deps == deps0 + CompanionEdges(self.stack, companion, zone.stack, zoneRegion);
  }

  /**
   * The companion edges keep an acyclic graph acyclic under AcyclicPremises, whether the companion
   * is the stage's existing one or a stack new to the graph.
   */
  lemma CertificateEdgesAcyclic(deps: Graph.Edges, stacks: map<StackId, StackInfo>, stage: map<string, StackId>,
                                requester: StackId, companion: StackId, zone: StackId, zoneRegion: Region)
    requires forall e :: e in deps ==> e.0 in stacks && e.1 in stacks
    requires requester in stacks && zone in stacks
    requires SupportStackId in stage ==> companion == stage[SupportStackId]
    requires SupportStackId !in stage ==> companion !in stacks
    requires AcyclicPremises(deps, stage, requester, zone)
    ensures Graph.Acyclic(deps + CompanionEdges(requester, companion, zone, zoneRegion))
  {
    if SupportStackId !in stage {
      Graph.SinkReachesNothing(deps, companion, requester);
      Graph.SourceUnreachableAll(deps, zone, companion);
    }
    Graph.AddEdgeAcyclic(deps, requester, companion);
    CompanionEdgesAcyclic(deps, requester, companion, zone, zoneRegion);
  }

  /** Adding the companion edges keeps the graph acyclic when the zone's stack reaches neither end of the first. */
  lemma CompanionEdgesAcyclic(deps: Graph.Edges, requester: StackId, companion: StackId, zone: StackId, zoneRegion: Region)
    requires Graph.Acyclic(deps + {(requester, companion)})
    requires Graph.Unreachable(deps, zone, companion) && Graph.Unreachable(deps, zone, requester)
    ensures Graph.Acyclic(deps + CompanionEdges(requester, companion, zone, zoneRegion))
  {
    var deps1 := deps + {(requester, companion)};
    if !InCloudFrontRegion(zoneRegion) {
      Graph.UnreachableAfterEdge(deps, requester, companion, zone, companion);
      Graph.AddEdgeAcyclic(deps1, companion, zone);
      assert deps + CompanionEdges(requester, companion, zone, zoneRegion) == deps1 + {(companion, zone)};
    } else {
      assert deps + CompanionEdges(requester, companion, zone, zoneRegion) == deps1;
    }
  }

  /**
   * The hosted zone outside us-east-1 (createCrossRegionCertificate): the companion depends on
   * the zone's stack, the zone id is stored from the zone's stack and read in the companion from
   * the zone's region, and a zone with that id and the original name is imported into the companion.
   */
  method CarryZoneId(d: Deployment, companion: StackId, zone: HostedZone, key: string)
    returns (r: Result<string>)
    requires d.Valid() && ReaderGrants(d) && companion in d.stacks && zone.stack in d.stacks
    modifies d
    ensures d.Valid() && ReaderGrants(d)
    ensures d.stacks == old(d.stacks) && d.stage == old(d.stage)
    ensures d.deps == old(d.deps) + {(companion, zone.stack)}
    ensures Extends(old(d.nodes), d.nodes)
    ensures forall k :: k in old(d.parameters) && k != (d.RegionOf(zone.stack), NamespaceParamName(key))
              ==> k in d.parameters && d.parameters[k] == old(d.parameters)[k]
    ensures r.Ok? ==> ZoneInCompanion(d, companion, zone, NamespaceParamName(key), r.value)
    ensures AddedWithin(old(d.nodes), d.nodes, ZoneFootprint(d.stacks[companion].path, d.stacks[zone.stack].path))
    ensures FreshPaths(old(d.nodes), ZoneFootprint(d.stacks[companion].path, d.stacks[zone.stack].path)) ==> r.Ok?
  {
    ghost var fp := ZoneFootprint(d.stacks[companion].path, d.stacks[zone.stack].path);
    ghost var free := FreshPaths(d.nodes, fp);
    assert free ==> fp[0] !in d.nodes && fp[1] != fp[0] && fp[2] != fp[0] && fp[2] != fp[1];
    d.AddDependency(companion, zone.stack);
    var stored :- StoreCrossRegionString(d, d.StackScope(zone.stack), key, zone.hostedZoneId);
    assert free ==> fp[1] !in d.nodes && fp[2] !in d.nodes;
    r := ImportZone(d, companion, zone, key);
  }

  /** The companion's side of carrying the zone id: the reader from the zone's region and the imported zone. */
  method ImportZone(d: Deployment, companion: StackId, zone: HostedZone, key: string)
    returns (r: Result<string>)
    requires d.Valid() && ReaderGrants(d) && companion in d.stacks && zone.stack in d.stacks
    modifies d
    ensures d.Valid() && ReaderGrants(d)
    ensures d.stacks == old(d.stacks) && d.stage == old(d.stage) && d.deps == old(d.deps)
    ensures d.parameters == old(d.parameters) && Extends(old(d.nodes), d.nodes)
    ensures AddedWithin(old(d.nodes), d.nodes, ZoneFootprint(d.stacks[companion].path, d.stacks[zone.stack].path)[1..])
    ensures FreshPaths(old(d.nodes), ZoneFootprint(d.stacks[companion].path, d.stacks[zone.stack].path)[1..]) ==> r.Ok?
    ensures r.Ok? ==>
      var zoneReader := ChildPath(d.stacks[companion].path, "ARNReader");
      var imported := ChildPath(d.stacks[companion].path, "CloudFrontCrossRegionHostedZone");
      && zoneReader in d.nodes
      && d.nodes[zoneReader].stack == companion && d.nodes[zoneReader].kind.CrossRegionReader?
      && d.nodes[zoneReader].kind.region == d.RegionOf(zone.stack)
      && d.nodes[zoneReader].kind.parameterName == NamespaceParamName(key)
      && d.nodes[zoneReader].kind.refreshToken == None
      && imported in d.nodes
      && d.nodes[imported] == Construct(companion, ImportedHostedZone(r.value, zone.zoneName))
      && r.value == Attr(zoneReader, "stringValue")
      && forall p :: p in old(d.nodes) ==> p in d.nodes && d.nodes[p] == old(d.nodes)[p]
  {
    ghost var fp := ZoneFootprint(d.stacks[companion].path, d.stacks[zone.stack].path)[1..];
    assert fp == [ChildPath(d.StackScope(companion).path, "ARNReader"),
                  ChildPath(d.StackScope(companion).path, "CloudFrontCrossRegionHostedZone")];
    ghost var free := FreshPaths(d.nodes, fp);
    assert free ==> fp[0] !in d.nodes && fp[1] != fp[0];
    var zoneId :- GetCrossRegionString(d, d.StackScope(companion), key, d.RegionOf(zone.stack), None);
    assert free ==> fp[1] !in d.nodes;
    var imported :- d.AddChild(d.StackScope(companion), "CloudFrontCrossRegionHostedZone",
                               ImportedHostedZone(zoneId, zone.zoneName));
    r := Ok(zoneId);
  }

  /**
   * The rest of createCrossRegionCertificate, once the companion exists: the zone id (carried over
   * when the zone is outside us-east-1), the certificate in the companion, its ARN stored from the
   * certificate and read by the facade from us-east-1 without a refresh token.
   */
  method IssueInCompanion(d: Deployment, self: Scope, region: string, companion: StackId,
                          props: CertificateProps)
    returns (r: Result<Certificate>)
    requires d.Valid() && ReaderGrants(d) && self.stack in d.stacks && companion in d.stacks
    requires props.hostedZone.stack in d.stacks
    requires SupportStackId in d.stage && d.stage[SupportStackId] == companion && (self.stack, companion) in d.deps
    modifies d
    ensures d.Valid() && ReaderGrants(d)
    ensures d.stacks == old(d.stacks) && d.stage == old(d.stage)
    ensures d.deps == old(d.deps) + (if InCloudFrontRegion(d.RegionOf(props.hostedZone.stack)) then {}
                                     else {(companion, props.hostedZone.stack)})
    ensures r.Ok? ==> r.value.path == self.path && r.value.stack == self.stack && r.value.certificate.stack == companion
    ensures r.Ok? ==> CertificateCrossRegion(d, self, region, props, r.value)
    ensures Extends(old(d.nodes), d.nodes)
    ensures AddedWithin(old(d.nodes), d.nodes, IssueFootprint(self.path, SupportStackId,
                                                              d.stacks[props.hostedZone.stack].path, d.RegionOf(props.hostedZone.stack)))
    ensures (&& FreshPaths(old(d.nodes), IssueFootprint(self.path, SupportStackId,
                                                       d.stacks[props.hostedZone.stack].path, d.RegionOf(props.hostedZone.stack))))
            ==> r.Ok?
  {
    assert d.stacks[companion].path == SupportStackId;
    var zone := props.hostedZone;
    var zoneId := zone.hostedZoneId;
    ghost var nodes0 := d.nodes;
    ghost var zp := if InCloudFrontRegion(d.RegionOf(zone.stack)) then [] else ZoneFootprint(d.stacks[companion].path, d.stacks[zone.stack].path);
    ghost var pp := PublishFootprint(self.path, d.stacks[companion].path);
    assert IssueFootprint(self.path, d.stacks[companion].path, d.stacks[zone.stack].path, d.RegionOf(zone.stack)) == zp + pp;
    if !InCloudFrontRegion(d.RegionOf(zone.stack)) {
      if FreshPaths(nodes0, zp + pp) {
        FreshPrefix(nodes0, zp, pp);
      }
      var carried := CarryZoneId(d, companion, zone, ZoneIdKey(region, self.path));
      if carried.Err? {
        AddedTrans(nodes0, d.nodes, d.nodes, zp, pp);
        return Err(carried.error);
      }
      zoneId := carried.value;
    } else {
      assert zp + pp == pp;
    }
    ghost var nodes1 := d.nodes;
    assert AddedWithin(nodes0, nodes1, zp);
    if FreshPaths(nodes0, zp + pp) {
      FreshRest(nodes0, nodes1, zp, pp);
    }
    ghost var zoneName := NamespaceParamName(ZoneIdKey(region, self.path));
    ZoneAndCertificateNamesDiffer(region, self.path, region, self.path);
    r := PublishCertificate(d, self, region, companion, props, zoneId);
    AddedTrans(nodes0, nodes1, d.nodes, zp, pp);
  }

  /** The certificate in the companion, its ARN stored there and read back by the facade. */
  method PublishCertificate(d: Deployment, self: Scope, region: string, companion: StackId,
                            props: CertificateProps, zoneId: string)
    returns (r: Result<Certificate>)
    requires d.Valid() && ReaderGrants(d) && self.stack in d.stacks && companion in d.stacks
    modifies d
    ensures d.Valid() && ReaderGrants(d)
    ensures d.stacks == old(d.stacks) && d.stage == old(d.stage) && d.deps == old(d.deps)
    ensures Extends(old(d.nodes), d.nodes)
    ensures forall k :: k in old(d.parameters) && k.1 != NamespaceParamName(CertificateArnKey(region, self.path))
              ==> k in d.parameters && d.parameters[k] == old(d.parameters)[k]
    ensures r.Ok? ==> r.value.path == self.path && r.value.stack == self.stack && r.value.certificate.stack == companion
    ensures r.Ok? ==>
      && r.value.certificate.path in d.nodes
      && d.nodes[r.value.certificate.path] == Construct(companion,
           DnsValidatedCertificate(props.domainName, zoneId, props.hostedZone.zoneName, CloudFrontRegion))
      && ArnReadBack(d, self, region, r.value)
    ensures AddedWithin(old(d.nodes), d.nodes, PublishFootprint(self.path, d.stacks[companion].path))
    ensures FreshPaths(old(d.nodes), PublishFootprint(self.path, d.stacks[companion].path)) ==> r.Ok?
  {
    ghost var fp := PublishFootprint(self.path, d.stacks[companion].path);
    ghost var free := FreshPaths(d.nodes, fp);
    assert free ==> fp[2] !in d.nodes && fp[2] != fp[0] && fp[2] != fp[1];
    assert fp[..2] == PublishFootprint("", d.stacks[companion].path)[..2];
    assert free ==> FreshPaths(d.nodes, fp[..2]);
    var certKey := CertificateArnKey(region, self.path);
    var cert :- PlaceCertificate(d, companion, props, zoneId, certKey);
    var arn :- GetCrossRegionString(d, self, certKey, Resolved(CloudFrontRegion), None);
    r := Ok(Certificate(self.path, self.stack, cert, arn));
  }

  /** The certificate as a child of the companion, and its ARN stored there under `certKey`. */
  method PlaceCertificate(d: Deployment, companion: StackId, props: CertificateProps, zoneId: string, certKey: string)
    returns (r: Result<Scope>)
    requires d.Valid() && ReaderGrants(d) && companion in d.stacks
    modifies d
    ensures d.Valid() && ReaderGrants(d)
    ensures d.stacks == old(d.stacks) && d.stage == old(d.stage) && d.deps == old(d.deps) && d.providers == old(d.providers)
    ensures AddedWithin(old(d.nodes), d.nodes, PublishFootprint("", d.stacks[companion].path)[..2])
    ensures FreshPaths(old(d.nodes), PublishFootprint("", d.stacks[companion].path)[..2]) ==> r.Ok?
    ensures r.Err? ==> d.parameters == old(d.parameters)
    ensures r.Ok? ==>
      var cert := ChildPath(d.stacks[companion].path, "CloudFrontCertificate");
      var certArn := CertificateArnOf(cert);
      && r.value == Scope(companion, cert)
      && d.nodes == old(d.nodes)[cert := Construct(companion, DnsValidatedCertificate(props.domainName, zoneId,
                                                                                      props.hostedZone.zoneName, CloudFrontRegion))]
                                [ChildPath(cert, "Parameter") := Construct(companion, StringParameter(NamespaceParamName(certKey), certArn))]
      && d.parameters == old(d.parameters)[(d.RegionOf(companion), NamespaceParamName(certKey)) := certArn]
    ensures Extends(old(d.nodes), d.nodes)
  {
    ghost var fp := PublishFootprint("", d.stacks[companion].path)[..2];
    ghost var free := FreshPaths(d.nodes, fp);
    assert free ==> fp[0] !in d.nodes && fp[1] != fp[0];
    var cert :- d.AddChild(d.StackScope(companion), "CloudFrontCertificate",
                           DnsValidatedCertificate(props.domainName, zoneId, props.hostedZone.zoneName, CloudFrontRegion));
    assert cert.path == fp[0] && ChildPath(cert.path, "Parameter") == fp[1];
    var storedArn :- StoreCrossRegionString(d, cert, certKey, CertificateArnOf(cert.path));
    r := Ok(cert);
  }

  /**
   * The certificate's ARN stored by the certificate under the namespaced key, and the facade's
   * reader reading that name from us-east-1 with no refresh token; the facade exposes the reader's value.
   */
  ghost predicate ArnReadBack(d: Deployment, self: Scope, region: string, c: Certificate)
    reads d
  {
    var companion := c.certificate.stack;
    var certName := NamespaceParamName(CertificateArnKey(region, self.path));
    var readerPath := ChildPath(self.path, "ARNReader");
    var certParam := ChildPath(c.certificate.path, "Parameter");
    && companion in d.stacks
    && c.certificate.path == ChildPath(d.stacks[companion].path, "CloudFrontCertificate")
    && certParam in d.nodes
    && d.nodes[certParam] == Construct(companion, StringParameter(certName, CertificateArnOf(c.certificate.path)))
    && (d.RegionOf(companion), certName) in d.parameters
    && d.parameters[(d.RegionOf(companion), certName)] == CertificateArnOf(c.certificate.path)
    && readerPath in d.nodes
    && d.nodes[readerPath].stack == self.stack && d.nodes[readerPath].kind.CrossRegionReader?
    && d.nodes[readerPath].kind.region == Resolved(CloudFrontRegion)
    && d.nodes[readerPath].kind.parameterName == certName
    && d.nodes[readerPath].kind.refreshToken == None
    && c.certificateArn == Attr(readerPath, "stringValue")
    && (d.RegionOf(companion) == Resolved(CloudFrontRegion) ==>
          d.ReadValue(readerPath) == Some(CertificateArnOf(c.certificate.path)))
  }

  /**
   * The zone id as the companion sees it: stored under `zoneName` by the zone's stack, read in the
   * companion from the zone's region, and imported there under the zone's original name.
   */
  ghost predicate ZoneInCompanion(d: Deployment, companion: StackId, zone: HostedZone, zoneName: string,
                                  zoneId: string)
    reads d
  {
    && companion in d.stacks && zone.stack in d.stacks
    && var zoneReader := ChildPath(d.stacks[companion].path, "ARNReader");
       var zoneStore := ChildPath(d.stacks[zone.stack].path, "Parameter");
       var imported := ChildPath(d.stacks[companion].path, "CloudFrontCrossRegionHostedZone");
       && (companion, zone.stack) in d.deps
       && zoneStore in d.nodes
       && d.nodes[zoneStore] == Construct(zone.stack, StringParameter(zoneName, zone.hostedZoneId))
       && (d.RegionOf(zone.stack), zoneName) in d.parameters
       && d.parameters[(d.RegionOf(zone.stack), zoneName)] == zone.hostedZoneId
       && zoneReader in d.nodes
       && d.nodes[zoneReader].stack == companion && d.nodes[zoneReader].kind.CrossRegionReader?
       && d.nodes[zoneReader].kind.region == d.RegionOf(zone.stack)
       && d.nodes[zoneReader].kind.parameterName == zoneName
       && d.nodes[zoneReader].kind.refreshToken == None
       && imported in d.nodes
       && d.nodes[imported] == Construct(companion, ImportedHostedZone(zoneId, zone.zoneName))
       && zoneId == Attr(zoneReader, "stringValue")
       && (d.RegionOf(zone.stack).Resolved? ==> d.ReadValue(zoneReader) == Some(zone.hostedZoneId))
  }

  /**
   * What the companion and the facade hold once the certificate is issued there: the certificate
   * (in us-east-1, with the zone id the companion sees); its ARN stored by the certificate under the
   * namespaced key; the facade's reader reading that name from us-east-1 with no refresh token;
   * and the facade exposing the reader's value.
   */
  ghost predicate CertificateInCompanion(d: Deployment, self: Scope, region: string,
                                         props: CertificateProps, c: Certificate)
    reads d
  {
    var zone := props.hostedZone;
    var zoneName := NamespaceParamName(ZoneIdKey(region, self.path));
    && zone.stack in d.stacks
    && c.certificate.path in d.nodes
    && d.nodes[c.certificate.path].stack == c.certificate.stack
    && d.nodes[c.certificate.path].kind.DnsValidatedCertificate?
    && d.nodes[c.certificate.path].kind.certificateRegion == CloudFrontRegion
    && d.nodes[c.certificate.path].kind.domainName == props.domainName
    && d.nodes[c.certificate.path].kind.zoneName == zone.zoneName
    && ArnReadBack(d, self, region, c)
    && (InCloudFrontRegion(d.RegionOf(zone.stack)) ==>
          d.nodes[c.certificate.path].kind.hostedZoneId == zone.hostedZoneId)
    && (!InCloudFrontRegion(d.RegionOf(zone.stack)) ==>
          ZoneInCompanion(d, c.certificate.stack, zone, zoneName, d.nodes[c.certificate.path].kind.hostedZoneId))
  }

  /** The cross-region result: the stage's companion, which the requester depends on, holds the certificate. */
  ghost predicate CertificateCrossRegion(d: Deployment, self: Scope, region: string,
                                         props: CertificateProps, c: Certificate)
    reads d
  {
    && SupportStackId in d.stage && d.stage[SupportStackId] == c.certificate.stack
    && (self.stack, c.certificate.stack) in d.deps
    && CertificateInCompanion(d, self, region, props, c)
  }
}
