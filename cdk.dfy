/**
 * The part of the construct framework the core relies on, as plain state: the stacks of one
 * synthesis pass, the stage that holds them, the construct tree (each construct keyed by its
 * full path), the stack dependency edges, the parameter store the deployment will write, and the
 * registry of singleton custom-resource providers.
 */
module Cdk {
  import opened Wrappers
  import Graph

  /** Stacks are told apart by identity, not by name. */
  type StackId = nat

  /** A stack's region is either a concrete name or a token not resolved at definition time. */
  datatype Region = Resolved(name: string) | Unresolved

  datatype Env = Env(account: string, region: Region)

  datatype StackInfo = StackInfo(path: string, env: Env)

  /** A construct, seen as a scope for new children: the stack it belongs to and its tree path. */
  datatype Scope = Scope(stack: StackId, path: string)

  /** The event a CloudFront edge function is attached to. */
  datatype EventType = OriginRequest | OriginResponse | ViewerRequest | ViewerResponse {
    /** The two words of the kebab-case value of the enum member. */
    function Words(): (string, string) {
      match this
      case OriginRequest => ("origin", "request")
      case OriginResponse => ("origin", "response")
      case ViewerRequest => ("viewer", "request")
      case ViewerResponse => ("viewer", "response")
    }

    /** The string value of the enum member, e.g. "viewer-request". */
    function Value(): string {
      Words().0 + "-" + Words().1
    }
  }

  /** The configuration of a Lambda function (runtime, handler, code asset), kept opaque. */
  datatype FunctionProps = FunctionProps(runtime: string, handler: string, code: string)

  /** An edge function attached to a distribution behaviour. */
  datatype EdgeLambda = EdgeLambda(functionVersion: string, eventType: EventType)

  /** What a construct is; only the resources the core creates are distinguished. */
  datatype Kind =
    | Facade
    | StringParameter(parameterName: string, stringValue: string)
    | CrossRegionReader(resourceType: string, serviceToken: string, region: Region,
                        parameterName: string, refreshToken: Option<string>)
    | LambdaFunction(props: FunctionProps)
    | DnsValidatedCertificate(domainName: string, hostedZoneId: string, zoneName: string, certificateRegion: string)
    | ImportedHostedZone(hostedZoneId: string, zoneName: string)
    | Bucket
    | Distribution(certificateArn: Option<string>, domainNames: Option<seq<string>>,
                   edgeLambdas: seq<EdgeLambda>)
    | ARecord(zoneName: string)
    | AaaaRecord(zoneName: string)
    | BucketDeployment(assets: string)

  datatype Construct = Construct(stack: StackId, kind: Kind)

  /** An IAM grant of ssm:GetParameter on the parameters whose name matches a glob, in one region. */
  datatype Grant = Grant(region: Region, account: string, resourceName: string)

  datatype Provider = Provider(resourceType: string, grant: Grant)

  /** Options of a CloudWatch metric; only the fields the facade touches or passes on. */
  datatype MetricOptions = MetricOptions(period: Option<nat>, statistic: Option<string>,
                                         displayLabel: Option<string>, account: Option<string>,
                                         region: Option<string>)

  /** A metric of the construct at `target`, as requested from the underlying resource. */
  datatype MetricRequest = MetricRequest(target: string, metricName: string, options: Option<MetricOptions>)

  /** Path of the child `id` of the construct at `parent`; the root's path is empty. */
  function ChildPath(parent: string, id: string): string {
    if parent == "" then id else parent + "/" + id
  }

  /** The token that stands for attribute `name` of the construct at `path`. */
  function Attr(path: string, name: string): string {
    "${Token[" + path + "." + name + "]}"
  }

  /** Every entry of a is still in b, unchanged: b only gained entries. */
  ghost predicate Extends<K, V>(a: map<K, V>, b: map<K, V>) {
    forall k :: k in a ==> k in b && b[k] == a[k]
  }

  lemma ExtendsTrans<K, V>(a: map<K, V>, b: map<K, V>, c: map<K, V>)
    requires Extends(a, b) && Extends(b, c)
    ensures Extends(a, c)
  {
  }

  /** A value of a map stays a value of every extension. */
  lemma ExtendsValues<K, V>(a: map<K, V>, b: map<K, V>, v: V)
    requires Extends(a, b) && v in a.Values
    ensures v in b.Values
  {
    var k :| k in a && a[k] == v;
    assert b[k] == v;
  }

  /** The paths are pairwise distinct and none of them is taken in nodes. */
  predicate FreshPaths(nodes: map<string, Construct>, ps: seq<string>) {
    && (forall i, j :: 0 <= i < j < |ps| ==> ps[i] != ps[j])
    && (forall i :: 0 <= i < |ps| ==> ps[i] !in nodes)
  }

  /** Every path nodes' has beyond those of nodes is one of ps: an operation's footprint. */
  ghost predicate AddedWithin(nodes: map<string, Construct>, nodes': map<string, Construct>, ps: seq<string>) {
    forall p :: p in nodes' && p !in nodes ==> p in ps
  }

  /** Footprints compose in the order the operations run. */
  lemma AddedTrans(n0: map<string, Construct>, n1: map<string, Construct>, n2: map<string, Construct>,
                   a: seq<string>, b: seq<string>)
    requires AddedWithin(n0, n1, a) && AddedWithin(n1, n2, b)
    ensures AddedWithin(n0, n2, a + b)
  {
    forall p | p in n2 && p !in n0 ensures p in a + b {
      if p in n1 { assert p in a; } else { assert p in b; }
    }
  }

  /**
   * When the footprints a and b were free and distinct, whatever was added within a leaves b free:
   * the later operation still finds its paths untaken.
   */
  lemma FreshRest(nodes: map<string, Construct>, nodes': map<string, Construct>, a: seq<string>, b: seq<string>)
    requires FreshPaths(nodes, a + b) && AddedWithin(nodes, nodes', a)
    ensures FreshPaths(nodes', b)
  {
    var ab := a + b;
    forall i, j | 0 <= i < j < |b| ensures b[i] != b[j] {
      assert b[i] == ab[|a| + i] && b[j] == ab[|a| + j];
    }
    forall i | 0 <= i < |b| ensures b[i] !in nodes' {
      assert b[i] == ab[|a| + i];
      assert forall k :: 0 <= k < |a| ==> a[k] == ab[k];
    }
  }

  /** The first of two free footprints is free. */
  lemma FreshPrefix(nodes: map<string, Construct>, a: seq<string>, b: seq<string>)
    requires FreshPaths(nodes, a + b)
    ensures FreshPaths(nodes, a)
  {
    var ab := a + b;
    assert forall i :: 0 <= i < |a| ==> a[i] == ab[i];
  }

  /** Paths added within `step`, all of which lie in `all`, keep what was added within `all`. */
  lemma AddedWithinGrow(nodes0: map<string, Construct>, nodes1: map<string, Construct>, nodes2: map<string, Construct>,
                        all: seq<string>, step: seq<string>)
    requires AddedWithin(nodes0, nodes1, all) && AddedWithin(nodes1, nodes2, step)
    requires forall p :: p in step ==> p in all
    ensures AddedWithin(nodes0, nodes2, all)
  {
  }

  class Deployment {
    var stacks: map<StackId, StackInfo>
    /** The stage's children, by construct id. */
    var stage: map<string, StackId>
    var nodes: map<string, Construct>
    var deps: Graph.Edges
    /** The value each (region, parameter name) will hold once the stores are deployed. */
    var parameters: map<(Region, string), string>
    var providers: map<(StackId, string), Provider>
    var nextStack: StackId

    ghost predicate Valid()
      reads this
    {
      && (forall s :: s in stacks ==> s < nextStack)
      && (forall id :: id in stage ==> stage[id] in stacks && stacks[stage[id]].path == id)
      && (forall p :: p in nodes ==> nodes[p].stack in stacks)
      && (forall e :: e in deps ==> e.0 in stacks && e.1 in stacks)
      && (forall k :: k in providers ==> k.0 in stacks)
    }

    /** An empty synthesis pass: a stage with no stacks. */
    constructor ()
      ensures Valid()
      ensures stacks == map[] && stage == map[] && nodes == map[] && deps == {}
      ensures parameters == map[] && providers == map[]
    {
      stacks, stage, nodes, deps := map[], map[], map[], {};
      parameters, providers, nextStack := map[], map[], 0;
    }

    /** Stage.of: the stack sits inside the stage. */
    predicate InStage(s: StackId)
      reads this
    {
      s in stage.Values
    }

    function RegionOf(s: StackId): Region
      reads this
      requires s in stacks
    {
      stacks[s].env.region
    }

    /** The stack itself, as a scope for new children. */
    function StackScope(s: StackId): (sc: Scope)
      reads this
      requires s in stacks
      ensures sc.stack == s
    {
      Scope(s, stacks[s].path)
    }

    /** What the cross-region reader at `path` returns, looked up in the parameter store. */
    ghost function ReadValue(path: string): Option<string>
      reads this
    {
      if path in nodes && nodes[path].kind.CrossRegionReader?
         && (nodes[path].kind.region, nodes[path].kind.parameterName) in parameters
      then Some(parameters[(nodes[path].kind.region, nodes[path].kind.parameterName)])
      else None
    }

    /** `new Stack(stage, id, { env })`: fails when the stage already has a child named id. */
    method AddStack(id: string, env: Env) returns (r: Result<StackId>)
      requires Valid()
      modifies this
      ensures Valid()
      ensures id in old(stage) ==> r.Err? && unchanged(this)
      ensures id !in old(stage) ==>
        && r.Ok? && r.value !in old(stacks)
        && stacks == old(stacks)[r.value := StackInfo(id, env)]
        && stage == old(stage)[id := r.value]
      ensures nodes == old(nodes) && deps == old(deps)
      ensures parameters == old(parameters) && providers == old(providers)
    {
      if id in stage {
        return Err("There is already a Construct with name '" + id + "'");
      }
      var s := nextStack;
      stacks := stacks[s := StackInfo(id, env)];
      stage := stage[id := s];
      nextStack := nextStack + 1;
      r := Ok(s);
    }

    /** A stack created outside any stage (no enclosing Stage). */
    method AddStandaloneStack(path: string, env: Env) returns (s: StackId)
      requires Valid()
      modifies this
      ensures Valid()
      ensures s !in old(stacks) && stacks == old(stacks)[s := StackInfo(path, env)]
      ensures stage == old(stage) && nodes == old(nodes) && deps == old(deps)
      ensures parameters == old(parameters) && providers == old(providers)
    {
      s := nextStack;
      stacks := stacks[s := StackInfo(path, env)];
      nextStack := nextStack + 1;
    }

    /** `new X(parent, id, ...)`: fails when parent already has a child named id. */
    method AddChild(parent: Scope, id: string, kind: Kind) returns (r: Result<Scope>)
      requires Valid() && parent.stack in stacks
      modifies this
      ensures Valid()
      ensures ChildPath(parent.path, id) in old(nodes) ==> r.Err? && unchanged(this)
      ensures ChildPath(parent.path, id) !in old(nodes) ==>
        && r == Ok(Scope(parent.stack, ChildPath(parent.path, id)))
        && nodes == old(nodes)[ChildPath(parent.path, id) := Construct(parent.stack, kind)]
      ensures stacks == old(stacks) && stage == old(stage) && deps == old(deps)
      ensures parameters == old(parameters) && providers == old(providers)
    {
      var path := ChildPath(parent.path, id);
      if path in nodes {
        return Err("There is already a Construct with name '" + id + "' in " + parent.path);
      }
      nodes := nodes[path := Construct(parent.stack, kind)];
      r := Ok(Scope(parent.stack, path));
    }

    /** `Stack.of(a).addDependency(b)`: b is deployed before a. */
    method AddDependency(a: StackId, b: StackId)
      requires Valid() && a in stacks && b in stacks
      modifies this
      ensures Valid()
      ensures deps == old(deps) + {(a, b)}
      ensures stacks == old(stacks) && stage == old(stage) && nodes == old(nodes)
      ensures parameters == old(parameters) && providers == old(providers)
    {
      deps := deps + {(a, b)};
    }

    /** The deployed StringParameter writes its value under (region, name). */
    method PutParameter(region: Region, name: string, value: string)
      requires Valid()
      modifies this
      ensures Valid()
      ensures parameters == old(parameters)[(region, name) := value]
      ensures stacks == old(stacks) && stage == old(stage) && nodes == old(nodes)
      ensures deps == old(deps) && providers == old(providers)
    {
      parameters := parameters[(region, name) := value];
    }

    /**
     * `CustomResourceProvider.getOrCreate(scope, resourceType, props)`: the first call for a
     * (stack, resourceType) registers a provider with the given grant; later calls reuse it as it is.
     */
    method GetOrCreateProvider(s: StackId, resourceType: string, grant: Grant) returns (serviceToken: string)
      requires Valid() && s in stacks
      modifies this
      ensures Valid()
      ensures (s, resourceType) in old(providers) ==> providers == old(providers)
      ensures (s, resourceType) !in old(providers) ==>
        providers == old(providers)[(s, resourceType) := Provider(resourceType, grant)]
      ensures serviceToken == Attr(ChildPath(stacks[s].path, resourceType + "CustomResourceProviderHandler"), "Arn")
      ensures stacks == old(stacks) && stage == old(stage) && nodes == old(nodes)
      ensures deps == old(deps) && parameters == old(parameters)
    {
      if (s, resourceType) !in providers {
        providers := providers[(s, resourceType) := Provider(resourceType, grant)];
      }
      serviceToken := Attr(ChildPath(stacks[s].path, resourceType + "CustomResourceProviderHandler"), "Arn");
    }
  }
}
