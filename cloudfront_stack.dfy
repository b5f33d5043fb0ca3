/**
 * The CloudFront website stack (stacks/cloudfront-stack.ts): an origin bucket, an optional
 * certificate and DNS records for a hosted zone, edge functions per requested event type, the
 * distribution that ties them together and an optional deployment of the website assets.
 */
module CloudFrontStack {
  import opened Wrappers
  import opened Strings
  import opened Cdk
  import opened EdgeFunction
  import opened CloudFrontCertificate
  import opened CrossRegion
  import Graph

  /** ASCII upper-casing of one character. */
  function Upper(c: char): (u: char)
    ensures 'a' <= c <= 'z' ==> 'A' <= u <= 'Z' && u as int == c as int - 32
    ensures !('a' <= c <= 'z') ==> u == c
  {
    if 'a' <= c <= 'z' then (c as int - 32) as char else c
  }

  /** A segment with its first character upper-cased and the rest kept. */
  function Capitalize(segment: string): (r: string)
    requires segment != ""
    ensures |r| == |segment| && r[0] == Upper(segment[0]) && r[1..] == segment[1..]
  {
    [Upper(segment[0])] + segment[1..]
  }

  predicate AllNonEmpty(parts: seq<string>) {
    forall i :: 0 <= i < |parts| ==> parts[i] != ""
  }

  function CapitalizeAll(parts: seq<string>): (r: seq<string>)
    requires AllNonEmpty(parts)
    ensures |r| == |parts|
    ensures forall i :: 0 <= i < |parts| ==> r[i] == Capitalize(parts[i])
  {
    if |parts| == 0 then [] else [Capitalize(parts[0])] + CapitalizeAll(parts[1..])
  }

  /**
   * The inputs `normalize` accepts: no segment between dashes is empty. An empty segment (empty
   * input, a leading or trailing '-', or "--") makes the source index an undefined first character.
   */
  predicate IsKebab(s: string) {
    AllNonEmpty(Split(s, '-'))
  }

  /** `normalize`: kebab-case to PascalCase, by splitting on '-', capitalising and concatenating. */
  function Normalize(s: string): string
    requires IsKebab(s)
  {
    Concat(CapitalizeAll(Split(s, '-')))
  }

  lemma {:induction false} ConcatNoChar(parts: seq<string>, c: char)
    requires forall i :: 0 <= i < |parts| ==> c !in parts[i]
    ensures c !in Concat(parts)
  {
    if |parts| > 0 { ConcatNoChar(parts[1..], c); }
  }

  /** The result never contains a dash. */
  lemma NormalizeHasNoDash(s: string)
    requires IsKebab(s)
    ensures '-' !in Normalize(s)
  {
    var parts := Split(s, '-');
    var caps := CapitalizeAll(parts);
    forall i | 0 <= i < |caps| ensures '-' !in caps[i] {
      assert caps[i] == [Upper(parts[i][0])] + parts[i][1..];
      assert '-' !in parts[i];
      assert parts[i][0] in parts[i];
    }
    ConcatNoChar(caps, '-');
  }

  lemma {:induction false} CapitalizeAllLength(parts: seq<string>)
    requires AllNonEmpty(parts)
    ensures TotalLength(CapitalizeAll(parts)) == TotalLength(parts)
  {
    if |parts| > 0 { CapitalizeAllLength(parts[1..]); }
  }

  /** Only the dashes are dropped: the length shrinks by the number of dashes. */
  lemma NormalizeLength(s: string)
    requires IsKebab(s)
    ensures |Normalize(s)| == |s| - Count(s, '-')
  {
    var parts := Split(s, '-');
    CapitalizeAllLength(parts);
    ConcatLength(CapitalizeAll(parts));
    SplitLength(s, '-');
  }

  /** The empty string, a leading or trailing '-' and "--" give an empty segment, so `normalize` refuses them. */
  lemma NotKebab(a: string, b: string)
    ensures !IsKebab("")
    ensures !IsKebab("-" + a)
    ensures !IsKebab(a + "-")
    ensures !IsKebab(a + "--" + b)
  {
    assert Split("", '-') == [""];
    assert ("-" + a)[0] == '-';
    assert Split("-" + a, '-')[0] == "";
    SplitAround(a, "", '-');
    assert a + "-" == a + ['-'] + "";
    var left := Split(a, '-');
    assert (left + [""])[|left|] == "";
    SplitAround(a, "-" + b, '-');
    assert a + "--" + b == a + ['-'] + ("-" + b);
    assert Split("-" + b, '-')[0] == "" by { assert ("-" + b)[0] == '-'; }
    assert (left + Split("-" + b, '-'))[|left|] == "";
  }

  /** `normalize` is idempotent on the inputs it accepts. */
  lemma NormalizeIdempotent(s: string)
    requires IsKebab(s)
    ensures IsKebab(Normalize(s)) && Normalize(Normalize(s)) == Normalize(s)
  {
    var n := Normalize(s);
    NormalizeHasNoDash(s);
    SplitWithoutSeparator(n, '-');
    var parts := Split(s, '-');
    var caps := CapitalizeAll(parts);
    assert n == caps[0] + Concat(caps[1..]);
    assert n[0] == Upper(parts[0][0]);
    assert Capitalize(n) == n;
    assert CapitalizeAll([n]) == [n];
    assert Concat([n]) == n;
  }

  /** A two-word kebab-case name becomes the two capitalised words. */
  lemma NormalizeTwoWords(a: string, b: string)
    requires a != "" && b != "" && '-' !in a && '-' !in b
    ensures IsKebab(a + "-" + b) && Normalize(a + "-" + b) == Capitalize(a) + Capitalize(b)
  {
    SplitAt(a, b, '-');
    SplitWithoutSeparator(b, '-');
    assert a + "-" + b == a + ['-'] + b;
    assert Split(a + "-" + b, '-') == [a, b];
    assert CapitalizeAll([a, b]) == [Capitalize(a), Capitalize(b)];
    var caps := [Capitalize(a), Capitalize(b)];
    assert caps[1..] == [Capitalize(b)];
    assert Concat([Capitalize(b)]) == Capitalize(b) + Concat([]);
    assert Concat(caps) == Capitalize(a) + Capitalize(b);
  }

  /** Every edge event type's value is accepted by `normalize`, which capitalises its two words. */
  lemma EventTypeNormalizes(e: EventType)
    ensures IsKebab(e.Value())
    ensures Normalize(e.Value()) == Capitalize(e.Words().0) + Capitalize(e.Words().1)
  {
    var (a, b) := e.Words();
    assert a != "" && b != "" && '-' !in a && '-' !in b;
    NormalizeTwoWords(a, b);
  }

  /** What every edge function's construct id starts with. */
  const IdPrefix := "CFEdgeFunction"

  /** The length of the first word of every event type's value ("origin", "viewer"). */
  const FirstWordLength := 6

  /** Where, in an id, the capitalised first word's initial sits. */
  const InitialAt := |IdPrefix|

  /** Where, in an id, the second word's third character sits: after the first word and two more. */
  const SecondWordThirdAt := |IdPrefix| + FirstWordLength + 2

  /** The construct id of the edge function for an event type. */
  function EdgeFunctionId(e: EventType): string {
    EventTypeNormalizes(e);
    IdPrefix + Normalize(e.Value())
  }

  /** Two characters of an event type's value that tell the four types apart. */
  function IdKey(e: EventType): (char, char) {
    match e
    case OriginRequest => ('O', 'q')
    case OriginResponse => ('O', 's')
    case ViewerRequest => ('V', 'q')
    case ViewerResponse => ('V', 's')
  }

  /** For a first word of FirstWordLength letters, two characters of the id are its initial, upper-cased, and the second word's third. */
  lemma IdCharacters(a: string, b: string)
    requires |a| == FirstWordLength && |b| >= 3 && '-' !in a && '-' !in b
    ensures IsKebab(a + "-" + b)
    ensures var id := IdPrefix + Normalize(a + "-" + b);
      |id| > SecondWordThirdAt && id[InitialAt] == Upper(a[0]) && id[SecondWordThirdAt] == b[2]
  {
    NormalizeTwoWords(a, b);
    var ca, cb := Capitalize(a), Capitalize(b);
    assert (ca + cb)[FirstWordLength + 2] == cb[2] == b[2];
  }

  /** The words of every event type: a six-letter first word, a longer second one, no dashes. */
  lemma WordsShape(e: EventType)
    ensures var (a, b) := e.Words();
      |a| == FirstWordLength && |b| >= 7 && '-' !in a && '-' !in b && (Upper(a[0]), b[2]) == IdKey(e)
  {
  }

  /**
   * Two characters of the id tell the event types apart: the capitalised first word's initial,
   * and the third character of the second word ("origin"/"viewer" both have six letters).
   */
  lemma EdgeFunctionIdShape(e: EventType)
    ensures |EdgeFunctionId(e)| > SecondWordThirdAt
    ensures (EdgeFunctionId(e)[InitialAt], EdgeFunctionId(e)[SecondWordThirdAt]) == IdKey(e)
  {
    var w := e.Words();
    WordsShape(e);
    IdCharacters(w.0, w.1);
    assert e.Value() == w.0 + "-" + w.1;
  }

  /** Different event types give different construct ids, so only a repeated event type collides. */
  lemma EdgeFunctionIdInjective(e1: EventType, e2: EventType)
    ensures EdgeFunctionId(e1) == EdgeFunctionId(e2) ==> e1 == e2
  {
    EdgeFunctionIdShape(e1);
    EdgeFunctionIdShape(e2);
    assert IdKey(e1) == IdKey(e2) ==> e1 == e2;
  }

  datatype EdgeFunctionTypeAndProps = EdgeFunctionTypeAndProps(eventType: EventType, props: FunctionProps)

  /** The stack's properties; `env` is the stack's own environment. */
  datatype CloudFrontStackProps = CloudFrontStackProps(
    env: Env,
    websiteAssets: Option<string>,
    hostedZone: Option<HostedZone>,
    edgeLambdas: Option<seq<EdgeFunctionTypeAndProps>>)
  {
    /** `props?.edgeLambdas || []`. */
    function EdgeLambdaEntries(): seq<EdgeFunctionTypeAndProps> {
      if edgeLambdas.Some? then edgeLambdas.value else []
    }

    /** `props?.websiteAssets` is truthy: present and not the empty string. */
    predicate DeploysAssets() {
      websiteAssets.Some? && websiteAssets.value != ""
    }
  }

  /** The constructs the stack creates, as handles. */
  datatype CloudFrontStack = CloudFrontStack(
    stack: StackId,
    originBucket: Scope,
    certificate: Option<Certificate>,
    edgeFunctions: seq<EdgeFunction>,
    distribution: Scope,
    records: Option<(Scope, Scope)>,
    bucketDeployment: Option<Scope>)

  /** The distribution's edge lambdas: each function's current version with its entry's event type. */
  function Attachments(entries: seq<EdgeFunctionTypeAndProps>, fns: seq<EdgeFunction>): (a: seq<EdgeLambda>)
    requires |fns| == |entries|
    ensures |a| == |entries|
    ensures forall j :: 0 <= j < |a| ==>
              a[j].eventType == entries[j].eventType && a[j].functionVersion == fns[j].CurrentVersion().edgeArn
  {
    seq(|entries|, j requires 0 <= j < |entries| => EdgeLambda(fns[j].CurrentVersion().edgeArn, entries[j].eventType))
  }

  /** One edge function `new EdgeFunction(this, id, props)` in stack s: its facade under the stack, and the function built from props. */
  method AddEdgeFunction(d: Deployment, s: StackId, id: string, props: FunctionProps,
                         versionChild: VersionDefaultChild)
    returns (r: Result<EdgeFunction>)
    requires d.Valid() && ReaderGrants(d) && s in d.stacks
    modifies d
    ensures d.Valid() && ReaderGrants(d)
    ensures Extends(old(d.stage), d.stage) && Extends(old(d.stacks), d.stacks) && Extends(old(d.nodes), d.nodes)
    ensures old(d.deps) <= d.deps
    ensures ChildPath(old(d.stacks[s].path), id) in old(d.nodes) ==> r.Err?
    ensures r.Ok? ==> r.value.path == ChildPath(old(d.stacks[s].path), id)
                      && r.value.path in d.nodes && d.nodes[r.value.path] == Construct(s, Facade)
    ensures r.Ok? ==> r.value.lambda.path in d.nodes
                      && d.nodes[r.value.lambda.path] == Construct(r.value.lambda.stack, LambdaFunction(props))
    ensures AddedWithin(old(d.nodes), d.nodes, FunctionFootprint(old(d.stacks[s].path), id, old(d.RegionOf(s))))
    ensures (&& FreshPaths(old(d.nodes), FunctionFootprint(old(d.stacks[s].path), id, old(d.RegionOf(s))))
             && CanBuildFunction(old(d.RegionOf(s)), old(d.InStage(s)), versionChild)) ==> r.Ok?
    // the function's companion never depends back on the stack, so nothing comes to depend on it
    ensures (&& r.Ok? && Graph.Acyclic(old(d.deps)) && Graph.NoEdgeInto(old(d.deps), s)
             && old(d.stacks[s].path) != FunctionSupportStackId)
            ==> Graph.Acyclic(d.deps) && Graph.NoEdgeInto(d.deps, s)
  {
    if FunctionSupportStackId in d.stage && Graph.NoEdgeInto(d.deps, s) && d.stacks[s].path != FunctionSupportStackId {
      Graph.SourceUnreachableAll(d.deps, d.stage[FunctionSupportStackId], s);
    }
    r := NewEdgeFunction(d, d.StackScope(s), id, props, versionChild);
    if r.Ok? && !InCloudFrontRegion(old(d.RegionOf(s))) {
      assert d.stacks[r.value.lambda.stack].path == FunctionSupportStackId;
    }
  }

  /**
   * The first |fns| entries are placed: each entry's facade sits at its expected path as a facade
   * of stack s, its function construct is built from that entry's props, and no two of them share
   * an event type.
   */
  ghost predicate Placed(nodes: map<string, Construct>, s: StackId, paths: seq<string>,
                         entries: seq<EdgeFunctionTypeAndProps>, fns: seq<EdgeFunction>)
  {
    && |fns| <= |entries| && |paths| == |entries|
    && (forall j :: 0 <= j < |fns| ==> fns[j].path == paths[j])
    && (forall j :: 0 <= j < |fns| ==> paths[j] in nodes && nodes[paths[j]] == Construct(s, Facade))
    && (forall j :: 0 <= j < |fns| ==>
          fns[j].lambda.path in nodes && nodes[fns[j].lambda.path] == Construct(fns[j].lambda.stack, LambdaFunction(entries[j].props)))
    && (forall j, k :: 0 <= j < k < |fns| ==> entries[j].eventType != entries[k].eventType)
  }

  /** The expected path of each entry's edge function under the stack at `path`. */
  function EdgeFunctionPaths(path: string, entries: seq<EdgeFunctionTypeAndProps>): (ps: seq<string>)
    ensures |ps| == |entries|
    ensures forall j :: 0 <= j < |entries| ==> ps[j] == ChildPath(path, EdgeFunctionId(entries[j].eventType))
  {
    seq(|entries|, j requires 0 <= j < |entries| => ChildPath(path, EdgeFunctionId(entries[j].eventType)))
  }

  /** The construct tree's maps at one moment. */
  datatype TreeState = TreeState(stage: map<string, StackId>, stacks: map<StackId, StackInfo>,
                                 nodes: map<string, Construct>, deps: Graph.Edges)

  ghost function Snapshot(d: Deployment): (t: TreeState)
    reads d
    ensures t.stage == d.stage && t.stacks == d.stacks && t.nodes == d.nodes && t.deps == d.deps
  {
    TreeState(d.stage, d.stacks, d.nodes, d.deps)
  }

  /** Since `t`, the tree has only grown and stack s is unchanged and still in the stage when it was. */
  ghost predicate Grown(d: Deployment, s: StackId, t: TreeState)
    reads d
  {
    && d.Valid() && ReaderGrants(d) && s in t.stacks && s in d.stacks && d.stacks[s] == t.stacks[s]
    && Extends(t.stage, d.stage) && Extends(t.stacks, d.stacks) && Extends(t.nodes, d.nodes) && t.deps <= d.deps
    && (s in t.stage.Values ==> s in d.stage.Values)
  }

  /**
   * After the first |fns| entries of the stack whose state was `t`: they are placed; only the
   * entries' footprints were added; the rest of the footprint is still free when all of it was;
   * and the graph is still acyclic, with no edge into s, when it was and s is not the companion.
   */
  ghost predicate Progress(d: Deployment, s: StackId, entries: seq<EdgeFunctionTypeAndProps>,
                           fns: seq<EdgeFunction>, t: TreeState)
    reads d
  {
    && Grown(d, s, t) && |fns| <= |entries|
    && NodesProgress(t.nodes, d.nodes, s, t.stacks[s].path, t.stacks[s].env.region, entries, fns)
    && (Graph.Acyclic(t.deps) && Graph.NoEdgeInto(t.deps, s) && t.stacks[s].path != FunctionSupportStackId ==>
          Graph.Acyclic(d.deps) && Graph.NoEdgeInto(d.deps, s))
  }

  /**
   * The construct tree's part of Progress, from `nodes0` to `nodes`: the first |fns| entries are
   * placed, only the entries' footprints were added, and the rest is still free when all was.
   */
  ghost predicate NodesProgress(nodes0: map<string, Construct>, nodes: map<string, Construct>, s: StackId,
                                path: string, region: Region, entries: seq<EdgeFunctionTypeAndProps>,
                                fns: seq<EdgeFunction>)
  {
    var all := EdgeFunctionsFootprint(path, region, entries, 0);
    && |fns| <= |entries|
    && Placed(nodes, s, EdgeFunctionPaths(path, entries), entries, fns)
    && AddedWithin(nodes0, nodes, all)
    && (FreshPaths(nodes0, all) ==> FreshPaths(nodes, EdgeFunctionsFootprint(path, region, entries, |fns|)))
  }

  /** The next entry's footprint is the head of what is still free. */
  lemma NodesStepFree(nodes0: map<string, Construct>, nodes: map<string, Construct>, s: StackId, path: string,
                      region: Region, entries: seq<EdgeFunctionTypeAndProps>, fns: seq<EdgeFunction>)
    requires NodesProgress(nodes0, nodes, s, path, region, entries, fns) && |fns| < |entries|
    ensures FreshPaths(nodes0, EdgeFunctionsFootprint(path, region, entries, 0)) ==>
              FreshPaths(nodes, FunctionFootprint(path, EdgeFunctionId(entries[|fns|].eventType), region))
  {
    var i := |fns|;
    var step := FunctionFootprint(path, EdgeFunctionId(entries[i].eventType), region);
    var rest := EdgeFunctionsFootprint(path, region, entries, i + 1);
    assert EdgeFunctionsFootprint(path, region, entries, i) == step + rest;
    if FreshPaths(nodes0, EdgeFunctionsFootprint(path, region, entries, 0)) {
      FreshPrefix(nodes, step, rest);
    }
  }

  /** What the next entry adds stays within the whole footprint. */
  lemma NodesStepWithin(nodes0: map<string, Construct>, nodes: map<string, Construct>, nodes': map<string, Construct>,
                        s: StackId, path: string, region: Region, entries: seq<EdgeFunctionTypeAndProps>,
                        fns: seq<EdgeFunction>)
    requires NodesProgress(nodes0, nodes, s, path, region, entries, fns) && |fns| < |entries|
    requires AddedWithin(nodes, nodes', FunctionFootprint(path, EdgeFunctionId(entries[|fns|].eventType), region))
    ensures AddedWithin(nodes0, nodes', EdgeFunctionsFootprint(path, region, entries, 0))
  {
    StepInFootprint(path, region, entries, 0, |fns|);
    AddedWithinGrow(nodes0, nodes, nodes', EdgeFunctionsFootprint(path, region, entries, 0),
                    FunctionFootprint(path, EdgeFunctionId(entries[|fns|].eventType), region));
  }

  /** Placing the next entry's facade at its free path advances the progress by one entry. */
  lemma NodesStep(nodes0: map<string, Construct>, nodes: map<string, Construct>, nodes': map<string, Construct>,
                  s: StackId, path: string, region: Region, entries: seq<EdgeFunctionTypeAndProps>,
                  fns: seq<EdgeFunction>, f: EdgeFunction)
    requires NodesProgress(nodes0, nodes, s, path, region, entries, fns) && |fns| < |entries|
    requires Extends(nodes, nodes')
    requires AddedWithin(nodes, nodes', FunctionFootprint(path, EdgeFunctionId(entries[|fns|].eventType), region))
    requires f.path == ChildPath(path, EdgeFunctionId(entries[|fns|].eventType)) && f.path !in nodes
    requires f.path in nodes' && nodes'[f.path] == Construct(s, Facade)
    requires f.lambda.path in nodes' && nodes'[f.lambda.path] == Construct(f.lambda.stack, LambdaFunction(entries[|fns|].props))
    ensures NodesProgress(nodes0, nodes', s, path, region, entries, fns + [f])
  {
    var i := |fns|;
    var paths := EdgeFunctionPaths(path, entries);
    var step := FunctionFootprint(path, EdgeFunctionId(entries[i].eventType), region);
    var rest := EdgeFunctionsFootprint(path, region, entries, i + 1);
    assert EdgeFunctionsFootprint(path, region, entries, i) == step + rest;
    SameTypeSamePathHolds(path, entries);
    assert paths[i] == f.path;
    PlacedExtend(nodes, nodes', s, paths, entries, fns, f);
    NodesStepWithin(nodes0, nodes, nodes', s, path, region, entries, fns);
    assert |fns + [f]| == i + 1;
    if FreshPaths(nodes0, EdgeFunctionsFootprint(path, region, entries, 0)) {
      FreshRest(nodes, nodes', step, rest);
    }
  }

  /**
   * One iteration of the `edgeLambdas.map`: the next entry's edge function. It fails only if the
   * footprint was not free or the function cannot be built.
   */
  method PlaceNext(d: Deployment, s: StackId, entries: seq<EdgeFunctionTypeAndProps>, fns: seq<EdgeFunction>,
                   versionChild: VersionDefaultChild, ghost t: TreeState)
    returns (r: Result<seq<EdgeFunction>>)
    requires Progress(d, s, entries, fns, t) && |fns| < |entries|
    modifies d
    ensures Grown(d, s, t)
    ensures r.Ok? ==> |r.value| == |fns| + 1 && Progress(d, s, entries, r.value, t)
    ensures r.Err? ==>
      var path, region := t.stacks[s].path, t.stacks[s].env.region;
      && AddedWithin(t.nodes, d.nodes, EdgeFunctionsFootprint(path, region, entries, 0))
      && !(FreshPaths(t.nodes, EdgeFunctionsFootprint(path, region, entries, 0))
           && CanBuildFunction(region, s in t.stage.Values, versionChild))
  {
    var i := |fns|;
    ghost var path, region := t.stacks[s].path, t.stacks[s].env.region;
    ghost var nodes0, stage0, stacks0 := d.nodes, d.stage, d.stacks;
    var id := EdgeFunctionId(entries[i].eventType);
    NodesStepFree(t.nodes, nodes0, s, path, region, entries, fns);
    var f := AddEdgeFunction(d, s, id, entries[i].props, versionChild);
    NodesStepWithin(t.nodes, nodes0, d.nodes, s, path, region, entries, fns);
    ExtendsTrans(t.nodes, nodes0, d.nodes);
    ExtendsTrans(t.stage, stage0, d.stage);
    ExtendsTrans(t.stacks, stacks0, d.stacks);
    if s in t.stage.Values {
      ExtendsValues(stage0, d.stage, s);
    }
    if f.Err? {
      return Err(f.error);
    }
    NodesStep(t.nodes, nodes0, d.nodes, s, path, region, entries, fns, f.value);
    r := Ok(fns + [f.value]);
  }

  /** Entries with the same event type are given the same path. */
  ghost predicate SameTypeSamePath(paths: seq<string>, entries: seq<EdgeFunctionTypeAndProps>) {
    |paths| == |entries| &&
    forall j, k :: 0 <= j < |paths| && 0 <= k < |paths| && entries[j].eventType == entries[k].eventType
      ==> paths[j] == paths[k]
  }

  lemma SameTypeSamePathHolds(path: string, entries: seq<EdgeFunctionTypeAndProps>)
    ensures SameTypeSamePath(EdgeFunctionPaths(path, entries), entries)
  {
  }

  /**
   * Placing entry |fns| at its path, which was free, keeps the earlier entries placed; that the
   * path was free means no earlier entry has the same event type.
   */
  lemma PlacedExtend(nodes: map<string, Construct>, nodes': map<string, Construct>, s: StackId,
                     paths: seq<string>, entries: seq<EdgeFunctionTypeAndProps>, fns: seq<EdgeFunction>,
                     f: EdgeFunction)
    requires Placed(nodes, s, paths, entries, fns) && |fns| < |entries| && Extends(nodes, nodes')
    requires SameTypeSamePath(paths, entries)
    requires paths[|fns|] !in nodes && f.path == paths[|fns|]
    requires f.path in nodes' && nodes'[f.path] == Construct(s, Facade)
    requires f.lambda.path in nodes' && nodes'[f.lambda.path] == Construct(f.lambda.stack, LambdaFunction(entries[|fns|].props))
    ensures Placed(nodes', s, paths, entries, fns + [f])
  {
    var i := |fns|;
    var fns' := fns + [f];
    forall j | 0 <= j < |fns'| ensures fns'[j].path == paths[j] {
      if j < i { assert fns'[j] == fns[j]; }
    }
    forall j | 0 <= j < |fns'| ensures paths[j] in nodes' && nodes'[paths[j]] == Construct(s, Facade) {
      if j < i { assert paths[j] in nodes; }
    }
    forall j | 0 <= j < |fns'|
      ensures fns'[j].lambda.path in nodes' && nodes'[fns'[j].lambda.path] == Construct(fns'[j].lambda.stack, LambdaFunction(entries[j].props))
    {
      if j < i { assert fns'[j] == fns[j] && fns[j].lambda.path in nodes; }
    }
    forall j, k | 0 <= j < k < |fns'| ensures entries[j].eventType != entries[k].eventType {
      if k == i {
        assert paths[j] in nodes;
        assert paths[j] != paths[k];
      }
    }
  }

  /** The edge functions, one per entry in list order, under the construct ids the entries' event types give. */
  method AddEdgeFunctions(d: Deployment, s: StackId, entries: seq<EdgeFunctionTypeAndProps>,
                          versionChildren: seq<VersionDefaultChild>)
    returns (r: Result<seq<EdgeFunction>>)
    requires d.Valid() && ReaderGrants(d) && s in d.stacks && |versionChildren| == |entries|
    modifies d
    ensures d.Valid() && ReaderGrants(d)
    ensures Extends(old(d.stage), d.stage) && Extends(old(d.stacks), d.stacks) && Extends(old(d.nodes), d.nodes)
    ensures old(d.deps) <= d.deps && d.stacks[s] == old(d.stacks[s])
    ensures old(d.InStage(s)) ==> d.InStage(s)
    ensures r.Ok? ==> |r.value| == |entries|
    ensures r.Ok? ==> Placed(d.nodes, s, EdgeFunctionPaths(old(d.stacks[s].path), entries), entries, r.value)
    // only the entries' footprints are added; free paths and buildable functions make every entry succeed
    ensures AddedWithin(old(d.nodes), d.nodes, EdgeFunctionsFootprint(old(d.stacks[s].path), old(d.RegionOf(s)), entries, 0))
    ensures (&& FreshPaths(old(d.nodes), EdgeFunctionsFootprint(old(d.stacks[s].path), old(d.RegionOf(s)), entries, 0))
             && CanBuildAll(old(d.RegionOf(s)), old(d.InStage(s)), versionChildren)) ==> r.Ok?
    // the companions never depend back on the stack, so the graph stays acyclic
    ensures (&& r.Ok? && Graph.Acyclic(old(d.deps)) && Graph.NoEdgeInto(old(d.deps), s)
             && old(d.stacks[s].path) != FunctionSupportStackId)
            ==> Graph.Acyclic(d.deps) && Graph.NoEdgeInto(d.deps, s)
  {
    var fns: seq<EdgeFunction> := [];
    ghost var t := Snapshot(d);
    while |fns| < |entries|
      invariant Progress(d, s, entries, fns, t)
      decreases |entries| - |fns|
    {
      assert CanBuildAll(t.stacks[s].env.region, s in t.stage.Values, versionChildren) ==>
        CanBuildFunction(t.stacks[s].env.region, s in t.stage.Values, versionChildren[|fns|]);
      var next := PlaceNext(d, s, entries, fns, versionChildren[|fns|], t);
      if next.Err? {
        return Err(next.error);
      }
      fns := next.value;
    }
    r := Ok(fns);
  }

  /** The paths the edge functions of entries[i..] add under the stack at `path` in `region`, entry by entry. */
  function EdgeFunctionsFootprint(path: string, region: Region, entries: seq<EdgeFunctionTypeAndProps>, i: nat): seq<string>
    decreases |entries| - i
  {
    if i >= |entries| then []
    else FunctionFootprint(path, EdgeFunctionId(entries[i].eventType), region) + EdgeFunctionsFootprint(path, region, entries, i + 1)
  }

  /** Entry i's footprint lies within the footprint of entries[j..] for every j <= i. */
  lemma {:induction false} StepInFootprint(path: string, region: Region, entries: seq<EdgeFunctionTypeAndProps>, j: nat, i: nat)
    requires j <= i < |entries|
    ensures forall p :: p in FunctionFootprint(path, EdgeFunctionId(entries[i].eventType), region) ==>
              p in EdgeFunctionsFootprint(path, region, entries, j)
    decreases i - j
  {
    var head := FunctionFootprint(path, EdgeFunctionId(entries[j].eventType), region);
    var rest := EdgeFunctionsFootprint(path, region, entries, j + 1);
    assert EdgeFunctionsFootprint(path, region, entries, j) == head + rest;
    if j < i {
      StepInFootprint(path, region, entries, j + 1, i);
      forall p | p in FunctionFootprint(path, EdgeFunctionId(entries[i].eventType), region)
        ensures p in head + rest
      {
        assert p in rest;
      }
    }
  }

  /** Every entry's function can be built: the stack is in us-east-1, or it has a resolved region and a stage and each version child is a resource. */
  predicate CanBuildAll(region: Region, inStage: bool, versionChildren: seq<VersionDefaultChild>) {
    forall j :: 0 <= j < |versionChildren| ==> CanBuildFunction(region, inStage, versionChildren[j])
  }

  /** `domainNames`: the zone's name when a hosted zone is given. */
  function DomainNames(props: CloudFrontStackProps): (names: Option<seq<string>>)
    ensures names.Some? <==> props.hostedZone.Some?
    ensures names.Some? ==> names.value == [props.hostedZone.value.zoneName]
  {
    if props.hostedZone.Some? then Some([props.hostedZone.value.zoneName]) else None
  }

  /** The distribution's certificate ARN, when a certificate was created. */
  function CertificateArn(cert: Option<Certificate>): (arn: Option<string>)
    ensures arn.Some? <==> cert.Some?
    ensures cert.Some? ==> arn.value == cert.value.certificateArn
  {
    if cert.Some? then Some(cert.value.certificateArn) else None
  }

  /** The origin bucket, and the certificate for the zone's name exactly when a hosted zone is given. */
  ghost predicate BucketAndCertificate(nodes: map<string, Construct>, path: string, s: StackId,
                                       props: CloudFrontStackProps, bucket: Scope, cert: Option<Certificate>)
  {
    && bucket == Scope(s, ChildPath(path, "CFOriginBucket"))
    && bucket.path in nodes && nodes[bucket.path] == Construct(s, Bucket)
    && (cert.Some? <==> props.hostedZone.Some?)
    && (cert.Some? ==> StackCertificate(nodes, path, props.hostedZone.value, cert.value))
  }

  /** The stack's certificate facade: validated through the zone, for the zone's name, issued in us-east-1. */
  ghost predicate StackCertificate(nodes: map<string, Construct>, path: string, zone: HostedZone, cert: Certificate) {
    && cert.path == ChildPath(path, "CFCertificate")
    && cert.certificate.path in nodes
    && nodes[cert.certificate.path].kind.DnsValidatedCertificate?
    && nodes[cert.certificate.path].kind.domainName == zone.zoneName
    && nodes[cert.certificate.path].kind.zoneName == zone.zoneName
    && nodes[cert.certificate.path].kind.certificateRegion == CloudFrontRegion
  }

  /**
   * The distribution with the certificate, the zone's name as its only domain name and the edge
   * functions' current versions attached with their event types; the A and AAAA records exactly
   * when a hosted zone is given; the bucket deployment exactly when website assets are given.
   */
  ghost predicate DistributionAndRecords(nodes: map<string, Construct>, path: string, props: CloudFrontStackProps,
                                         st: CloudFrontStack)
  {
    var s := st.stack;
    var entries := props.EdgeLambdaEntries();
    && |st.edgeFunctions| == |entries|
    && st.distribution == Scope(s, ChildPath(path, "CFDistribution"))
    && st.distribution.path in nodes
    && nodes[st.distribution.path]
         == Construct(s, Distribution(CertificateArn(st.certificate), DomainNames(props),
                                      Attachments(entries, st.edgeFunctions)))
    && (st.records.Some? <==> props.hostedZone.Some?)
    && (st.records.Some? ==>
          && st.records.value.0 == Scope(s, ChildPath(path, "CFIPv4AddressRecord"))
          && st.records.value.1 == Scope(s, ChildPath(path, "CFIPv6AddressRecord"))
          && st.records.value.0.path in nodes && st.records.value.1.path in nodes
          && nodes[st.records.value.0.path] == Construct(s, ARecord(props.hostedZone.value.zoneName))
          && nodes[st.records.value.1.path] == Construct(s, AaaaRecord(props.hostedZone.value.zoneName)))
    && (st.bucketDeployment.Some? <==> props.DeploysAssets())
    && (st.bucketDeployment.Some? ==>
          && st.bucketDeployment.value == Scope(s, ChildPath(path, "CFBucketDeployment"))
          && st.bucketDeployment.value.path in nodes
          && nodes[st.bucketDeployment.value.path] == Construct(s, BucketDeployment(props.websiteAssets.value)))
  }

  /** Everything the constructor leaves in the construct tree for the stack at `path`. */
  ghost predicate Built(nodes: map<string, Construct>, path: string, props: CloudFrontStackProps, st: CloudFrontStack)
  {
    && BucketAndCertificate(nodes, path, st.stack, props, st.originBucket, st.certificate)
    && Placed(nodes, st.stack, EdgeFunctionPaths(path, props.EdgeLambdaEntries()), props.EdgeLambdaEntries(), st.edgeFunctions)
    && DistributionAndRecords(nodes, path, props, st)
  }

  lemma BucketAndCertificateStays(nodes: map<string, Construct>, nodes': map<string, Construct>, path: string,
                                  s: StackId, props: CloudFrontStackProps, bucket: Scope, cert: Option<Certificate>)
    requires BucketAndCertificate(nodes, path, s, props, bucket, cert) && Extends(nodes, nodes')
    ensures BucketAndCertificate(nodes', path, s, props, bucket, cert)
  {
    assert bucket.path in nodes;
    if cert.Some? {
      assert cert.value.certificate.path in nodes;
    }
  }

  lemma PlacedStays(nodes: map<string, Construct>, nodes': map<string, Construct>, s: StackId, paths: seq<string>,
                    entries: seq<EdgeFunctionTypeAndProps>, fns: seq<EdgeFunction>)
    requires Placed(nodes, s, paths, entries, fns) && Extends(nodes, nodes')
    ensures Placed(nodes', s, paths, entries, fns)
  {
    forall j | 0 <= j < |fns| ensures paths[j] in nodes' && nodes'[paths[j]] == Construct(s, Facade) {
      assert paths[j] in nodes;
    }
    forall j | 0 <= j < |fns|
      ensures fns[j].lambda.path in nodes' && nodes'[fns[j].lambda.path] == Construct(fns[j].lambda.stack, LambdaFunction(entries[j].props))
    {
      assert fns[j].lambda.path in nodes;
    }
  }

  /** Where the hosted zone's stack is: its path and region (nothing when there is no zone). */
  function ZoneLocation(d: Deployment, zone: Option<HostedZone>): (string, Region)
    reads d
    requires zone.Some? ==> zone.value.stack in d.stacks
  {
    if zone.Some? then (d.stacks[zone.value.stack].path, d.RegionOf(zone.value.stack)) else ("", Unresolved)
  }

  /** The paths the bucket and, with a zone, the certificate add under the stack at `path` in `region`. */
  function BucketFootprint(path: string, region: Region, zone: Option<HostedZone>, zoneAt: (string, Region)): seq<string> {
    [ChildPath(path, "CFOriginBucket")]
    + (if zone.Some? then CertificateFootprint(path, "CFCertificate", region, zoneAt.0, zoneAt.1) else [])
  }

  /** The paths the distribution, the records for a zone and the assets' deployment add under the stack at `path`. */
  function DistributionFootprint(path: string, props: CloudFrontStackProps): seq<string> {
    [ChildPath(path, "CFDistribution")] + RecordsFootprint(path, props) + DeploymentFootprint(path, props)
  }

  /** The A and AAAA records' paths, when a hosted zone is given. */
  function RecordsFootprint(path: string, props: CloudFrontStackProps): seq<string> {
    if props.hostedZone.Some? then [ChildPath(path, "CFIPv4AddressRecord"), ChildPath(path, "CFIPv6AddressRecord")] else []
  }

  /** The bucket deployment's path, when website assets are given. */
  function DeploymentFootprint(path: string, props: CloudFrontStackProps): seq<string> {
    if props.DeploysAssets() then [ChildPath(path, "CFBucketDeployment")] else []
  }

  /** Everything the stack's constructs add, in the order the constructor adds them. */
  function StackFootprint(path: string, region: Region, props: CloudFrontStackProps, zoneAt: (string, Region)): seq<string> {
    BucketFootprint(path, region, props.hostedZone, zoneAt)
    + EdgeFunctionsFootprint(path, region, props.EdgeLambdaEntries(), 0)
    + DistributionFootprint(path, props)
  }

  /** Besides free paths, what the constructs need: a certificate can be issued for a zone, and every edge function built. */
  predicate CanBuildStack(region: Region, inStage: bool, props: CloudFrontStackProps, versionChildren: seq<VersionDefaultChild>) {
    && (props.hostedZone.Some? ==> CanIssue(region, inStage))
    && CanBuildAll(region, inStage, versionChildren)
  }

  /** The zone's stack is not s, and cannot reach the stage's existing certificate companion. */
  ghost predicate ZoneApart(deps: Graph.Edges, stage: map<string, StackId>, zone: StackId, s: StackId) {
    && zone != s
    && (CloudFrontCertificate.SupportStackId in stage ==>
          Graph.Unreachable(deps, zone, stage[CloudFrontCertificate.SupportStackId]))
  }

  /**
   * The constructor: a new stack `id` in the stage with the given environment, depending on the
   * hosted zone's stack when a zone is given, holding the constructs Built describes. A construct
   * id the framework would refuse as a duplicate is an error; with a new id, free paths and
   * buildable constructs, construction succeeds; it keeps an acyclic graph acyclic.
   */
  method NewCloudFrontStack(d: Deployment, id: string, props: CloudFrontStackProps,
                            versionChildren: seq<VersionDefaultChild>)
    returns (r: Result<CloudFrontStack>)
    requires d.Valid() && ReaderGrants(d)
    requires props.hostedZone.Some? ==> props.hostedZone.value.stack in d.stacks
    requires |versionChildren| == |props.EdgeLambdaEntries()|
    modifies d
    ensures d.Valid() && ReaderGrants(d)
    ensures id in old(d.stage) ==> r.Err? && unchanged(d)
    ensures r.Ok? ==>
      && r.value.stack !in old(d.stacks)
      && r.value.stack in d.stacks && d.stacks[r.value.stack] == StackInfo(id, props.env)
      && id in d.stage && d.stage[id] == r.value.stack
      && (props.hostedZone.Some? ==> (r.value.stack, props.hostedZone.value.stack) in d.deps)
      && Built(d.nodes, id, props, r.value)
    ensures AddedWithin(old(d.nodes), d.nodes, StackFootprint(id, props.env.region, props, old(ZoneLocation(d, props.hostedZone))))
    ensures (&& id !in old(d.stage)
             && FreshPaths(old(d.nodes), StackFootprint(id, props.env.region, props, old(ZoneLocation(d, props.hostedZone))))
             && CanBuildStack(props.env.region, true, props, versionChildren)) ==> r.Ok?
    ensures (&& r.Ok? && Graph.Acyclic(old(d.deps))
             && id != FunctionSupportStackId && id != CloudFrontCertificate.SupportStackId
             && (props.hostedZone.Some? && CloudFrontCertificate.SupportStackId in old(d.stage) ==>
                   Graph.Unreachable(old(d.deps), props.hostedZone.value.stack,
                                     old(d.stage[CloudFrontCertificate.SupportStackId]))))
            ==> Graph.Acyclic(d.deps)
  {
    ghost var zoneAt := ZoneLocation(d, props.hostedZone);
    var s :- d.AddStack(id, props.env);
    assert d.stage[id] == s;
    assert ZoneLocation(d, props.hostedZone) == zoneAt;
    assert Graph.NoEdgeInto(d.deps, s);
    if props.hostedZone.Some? {
      var zs := props.hostedZone.value.stack;
      DependencyKeepsApart(d.deps, d.stage, s, zs);
      d.AddDependency(s, zs);
    }
    r := FillStack(d, s, id, props, versionChildren);
  }

  /**
   * The new stack's dependency on the zone's stack keeps the graph acyclic, adds no edge into the
   * stack, and keeps the zone apart from the stage's certificate companion.
   */
  lemma DependencyKeepsApart(deps: Graph.Edges, stage: map<string, StackId>, s: StackId, zone: StackId)
    requires Graph.NoEdgeInto(deps, s) && zone != s
    ensures Graph.NoEdgeInto(deps + {(s, zone)}, s)
    ensures Graph.Acyclic(deps) ==> Graph.Acyclic(deps + {(s, zone)})
    ensures (CloudFrontCertificate.SupportStackId in stage ==>
               Graph.Unreachable(deps, zone, stage[CloudFrontCertificate.SupportStackId]))
            ==> ZoneApart(deps + {(s, zone)}, stage, zone, s)
  {
    Graph.SourceUnreachableAll(deps, zone, s);
    if Graph.Acyclic(deps) {
      Graph.AddEdgeAcyclic(deps, s, zone);
    }
    if CloudFrontCertificate.SupportStackId in stage {
      var companion := stage[CloudFrontCertificate.SupportStackId];
      if Graph.Unreachable(deps, zone, companion) {
        Graph.UnreachableAfterEdge(deps, s, zone, zone, companion);
      }
    }
  }

  /** The stack's constructs, in the constructor's order: bucket and certificate, edge functions, distribution and records. */
  method FillStack(d: Deployment, s: StackId, id: string, props: CloudFrontStackProps,
                   versionChildren: seq<VersionDefaultChild>)
    returns (r: Result<CloudFrontStack>)
    requires d.Valid() && ReaderGrants(d) && s in d.stacks && d.stacks[s] == StackInfo(id, props.env) && d.InStage(s)
    requires props.hostedZone.Some? ==> props.hostedZone.value.stack in d.stacks
    requires |versionChildren| == |props.EdgeLambdaEntries()|
    modifies d
    ensures d.Valid() && ReaderGrants(d)
    ensures Extends(old(d.stage), d.stage) && Extends(old(d.stacks), d.stacks) && old(d.deps) <= d.deps
    ensures r.Ok? ==> r.value.stack == s && Built(d.nodes, id, props, r.value)
    ensures AddedWithin(old(d.nodes), d.nodes, StackFootprint(id, props.env.region, props, old(ZoneLocation(d, props.hostedZone))))
    ensures (&& FreshPaths(old(d.nodes), StackFootprint(id, props.env.region, props, old(ZoneLocation(d, props.hostedZone))))
             && CanBuildStack(props.env.region, true, props, versionChildren)) ==> r.Ok?
    ensures (&& r.Ok? && Graph.Acyclic(old(d.deps)) && Graph.NoEdgeInto(old(d.deps), s)
             && id != FunctionSupportStackId && id != CloudFrontCertificate.SupportStackId
             && (props.hostedZone.Some? ==> ZoneApart(old(d.deps), old(d.stage), props.hostedZone.value.stack, s)))
            ==> Graph.Acyclic(d.deps)
  {
    ghost var nodes0, stage0, stacks0 := d.nodes, d.stage, d.stacks;
    ghost var path, region, zoneAt := id, props.env.region, ZoneLocation(d, props.hostedZone);
    assert d.RegionOf(s) == region;
    var entries := props.EdgeLambdaEntries();
    ghost var bfp, efp, dfp := BucketFootprint(path, region, props.hostedZone, zoneAt),
                               EdgeFunctionsFootprint(path, region, entries, 0), DistributionFootprint(path, props);
    assert StackFootprint(path, region, props, zoneAt) == bfp + (efp + dfp);
    if FreshPaths(nodes0, bfp + (efp + dfp)) {
      FreshPrefix(nodes0, bfp, efp + dfp);
    }
    var partial := AddBucketAndCertificate(d, s, id, props);
    ghost var nodes1, stage1, stacks1 := d.nodes, d.stage, d.stacks;
    if partial.Err? {
      AddedTrans(nodes0, nodes1, nodes1, bfp, efp + dfp);
      return Err(partial.error);
    }
    if FreshPaths(nodes0, bfp + (efp + dfp)) {
      FreshRest(nodes0, nodes1, bfp, efp + dfp);
      FreshPrefix(nodes1, efp, dfp);
    }
    assert ZoneLocation(d, props.hostedZone) == zoneAt;
    var fns := AddEdgeFunctions(d, s, entries, versionChildren);
    ghost var nodes2 := d.nodes;
    AddedTrans(nodes0, nodes1, nodes2, bfp, efp);
    if fns.Err? {
      AddedTrans(nodes0, nodes2, nodes2, bfp + efp, dfp);
      return Err(fns.error);
    }
    if FreshPaths(nodes0, bfp + (efp + dfp)) {
      FreshRest(nodes1, nodes2, efp, dfp);
    }
    ExtendsTrans(stage0, stage1, d.stage);
    ExtendsTrans(stacks0, stacks1, d.stacks);
    BucketAndCertificateStays(nodes1, nodes2, path, s, props, partial.value.0, partial.value.1);
    r := AddDistributionAndRecords(d, s, props, partial.value.0, partial.value.1, fns.value);
    AddedTrans(nodes0, nodes2, d.nodes, bfp + efp, dfp);
    assert bfp + efp + dfp == bfp + (efp + dfp);
    if r.Ok? {
      BucketAndCertificateStays(nodes2, d.nodes, path, s, props, partial.value.0, partial.value.1);
      PlacedStays(nodes2, d.nodes, s, EdgeFunctionPaths(path, entries), entries, fns.value);
    }
  }

  /** The origin bucket, then the certificate when a hosted zone is given. */
  method AddBucketAndCertificate(d: Deployment, s: StackId, id: string, props: CloudFrontStackProps)
    returns (r: Result<(Scope, Option<Certificate>)>)
    requires d.Valid() && ReaderGrants(d) && s in d.stacks && d.stacks[s] == StackInfo(id, props.env)
    requires props.hostedZone.Some? ==> props.hostedZone.value.stack in d.stacks
    modifies d
    ensures d.Valid() && ReaderGrants(d)
    ensures Extends(old(d.stage), d.stage) && Extends(old(d.stacks), d.stacks) && Extends(old(d.nodes), d.nodes)
    ensures old(d.deps) <= d.deps
    ensures old(d.InStage(s)) ==> d.InStage(s)
    ensures r.Ok? ==> BucketAndCertificate(d.nodes, id, s, props, r.value.0, r.value.1)
    ensures AddedWithin(old(d.nodes), d.nodes, BucketFootprint(id, props.env.region, props.hostedZone, old(ZoneLocation(d, props.hostedZone))))
    ensures (&& FreshPaths(old(d.nodes), BucketFootprint(id, props.env.region, props.hostedZone, old(ZoneLocation(d, props.hostedZone))))
             && (props.hostedZone.Some? ==> CanIssue(props.env.region, old(d.InStage(s))))) ==> r.Ok?
    // the certificate's companion never depends back on the stack
    ensures (&& r.Ok? && Graph.Acyclic(old(d.deps)) && Graph.NoEdgeInto(old(d.deps), s)
             && id != CloudFrontCertificate.SupportStackId
             && (props.hostedZone.Some? ==> ZoneApart(old(d.deps), old(d.stage), props.hostedZone.value.stack, s)))
            ==> Graph.Acyclic(d.deps) && Graph.NoEdgeInto(d.deps, s)
  {
    ghost var nodes0, stage0 := d.nodes, d.stage;
    ghost var fp := BucketFootprint(id, props.env.region, props.hostedZone, ZoneLocation(d, props.hostedZone));
    assert FreshPaths(d.nodes, fp) ==> fp[0] !in d.nodes;
    var bucket :- d.AddChild(d.StackScope(s), "CFOriginBucket", Bucket);
    if props.hostedZone.None? {
      assert fp == [bucket.path];
      return Ok((bucket, None));
    }
    var zone := props.hostedZone.value;
    ghost var nodes1 := d.nodes;
    assert Extends(nodes0, nodes1);
    ghost var certFp := CertificateFootprint(id, "CFCertificate", props.env.region,
                                             d.stacks[zone.stack].path, d.RegionOf(zone.stack));
    assert fp == [bucket.path] + certFp;
    if FreshPaths(nodes0, fp) {
      FreshRest(nodes0, nodes1, [bucket.path], certFp);
    }
    var cert :- AddStackCertificate(d, s, id, props.env, zone);
    AddedTrans(nodes0, nodes1, d.nodes, [bucket.path], certFp);
    ExtendsTrans(nodes0, nodes1, d.nodes);
    assert bucket.path in nodes1;
    r := Ok((bucket, Some(cert)));
  }

  /** The certificate for the hosted zone, under the stack `id` with environment `env`. */
  method AddStackCertificate(d: Deployment, s: StackId, id: string, env: Env, zone: HostedZone)
    returns (r: Result<Certificate>)
    requires d.Valid() && ReaderGrants(d) && s in d.stacks && d.stacks[s] == StackInfo(id, env) && zone.stack in d.stacks
    modifies d
    ensures d.Valid() && ReaderGrants(d)
    ensures Extends(old(d.stage), d.stage) && Extends(old(d.stacks), d.stacks) && Extends(old(d.nodes), d.nodes)
    ensures old(d.deps) <= d.deps
    ensures old(d.InStage(s)) ==> d.InStage(s)
    ensures r.Ok? ==> StackCertificate(d.nodes, id, zone, r.value)
    ensures AddedWithin(old(d.nodes), d.nodes, CertificateFootprint(id, "CFCertificate", env.region,
                                                                    old(d.stacks[zone.stack].path), old(d.RegionOf(zone.stack))))
    ensures (&& FreshPaths(old(d.nodes), CertificateFootprint(id, "CFCertificate", env.region,
                                                             old(d.stacks[zone.stack].path), old(d.RegionOf(zone.stack))))
             && CanIssue(env.region, old(d.InStage(s)))) ==> r.Ok?
    ensures (&& r.Ok? && Graph.Acyclic(old(d.deps)) && Graph.NoEdgeInto(old(d.deps), s)
             && id != CloudFrontCertificate.SupportStackId && ZoneApart(old(d.deps), old(d.stage), zone.stack, s))
            ==> Graph.Acyclic(d.deps) && Graph.NoEdgeInto(d.deps, s)
  {
    ghost var stage0, deps0 := d.stage, d.deps;
    ghost var premises := Graph.Acyclic(d.deps) && Graph.NoEdgeInto(d.deps, s) && id != CloudFrontCertificate.SupportStackId
                          && ZoneApart(d.deps, d.stage, zone.stack, s);
    if premises {
      CertificatePremisesHold(d, s, zone.stack);
    }
    r := NewCertificate(d, d.StackScope(s), "CFCertificate", CertificateProps(zone.zoneName, zone));
    if r.Err? {
      return;
    }
    if s in stage0.Values {
      ExtendsValues(stage0, d.stage, s);
    }
    if premises && !InCloudFrontRegion(env.region) {
      var companion := r.value.certificate.stack;
      assert d.stacks[companion].path == CloudFrontCertificate.SupportStackId;
      CompanionEdgesAvoid(deps0, s, companion, zone.stack, d.RegionOf(zone.stack));
    }
  }

  /** The certificate's edges end at the companion and the zone's stack, so they add no edge into any other stack. */
  lemma CompanionEdgesAvoid(deps: Graph.Edges, s: StackId, companion: StackId, zone: StackId, zoneRegion: Region)
    requires Graph.NoEdgeInto(deps, s) && companion != s && zone != s
    ensures Graph.NoEdgeInto(deps + CompanionEdges(s, companion, zone, zoneRegion), s)
  {
  }

  /** With no edge into s, neither the zone's stack nor the stage's certificate companion can reach s. */
  lemma CertificatePremisesHold(d: Deployment, s: StackId, zone: StackId)
    requires d.Valid() && s in d.stacks && zone in d.stacks
    requires Graph.Acyclic(d.deps) && Graph.NoEdgeInto(d.deps, s) && ZoneApart(d.deps, d.stage, zone, s)
    requires d.stacks[s].path != CloudFrontCertificate.SupportStackId
    ensures AcyclicPremises(d.deps, d.stage, s, zone)
  {
    Graph.SourceUnreachableAll(d.deps, zone, s);
    if CloudFrontCertificate.SupportStackId in d.stage {
      Graph.SourceUnreachableAll(d.deps, d.stage[CloudFrontCertificate.SupportStackId], s);
    }
  }

  /** The distribution over the edge functions, the DNS records for a zone and the assets' deployment. */
  method AddDistributionAndRecords(d: Deployment, s: StackId, props: CloudFrontStackProps,
                                   bucket: Scope, cert: Option<Certificate>, fns: seq<EdgeFunction>)
    returns (r: Result<CloudFrontStack>)
    requires d.Valid() && s in d.stacks && |fns| == |props.EdgeLambdaEntries()|
    modifies d
    ensures d.Valid()
    ensures d.stacks == old(d.stacks) && d.stage == old(d.stage) && d.deps == old(d.deps)
    ensures d.parameters == old(d.parameters) && d.providers == old(d.providers)
    ensures Extends(old(d.nodes), d.nodes)
    ensures r.Ok? ==>
      && r.value.stack == s && r.value.originBucket == bucket && r.value.certificate == cert
      && r.value.edgeFunctions == fns
      && DistributionAndRecords(d.nodes, d.stacks[s].path, props, r.value)
    ensures AddedWithin(old(d.nodes), d.nodes, DistributionFootprint(d.stacks[s].path, props))
    ensures FreshPaths(old(d.nodes), DistributionFootprint(d.stacks[s].path, props)) ==> r.Ok?
  {
    ghost var path, nodes0 := d.stacks[s].path, d.nodes;
    ghost var rfp, xfp := RecordsFootprint(path, props), DeploymentFootprint(path, props);
    ghost var fp := DistributionFootprint(path, props);
    assert fp == [ChildPath(path, "CFDistribution")] + (rfp + xfp);
    assert FreshPaths(nodes0, fp) ==> fp[0] !in nodes0;
    var dist :- d.AddChild(d.StackScope(s), "CFDistribution",
                           Distribution(CertificateArn(cert), DomainNames(props), Attachments(props.EdgeLambdaEntries(), fns)));
    ghost var nodes1 := d.nodes;
    assert Extends(nodes0, nodes1);
    if FreshPaths(nodes0, [dist.path] + (rfp + xfp)) {
      FreshRest(nodes0, nodes1, [dist.path], rfp + xfp);
      FreshPrefix(nodes1, rfp, xfp);
    }
    var records :- AddRecords(d, s, props);
    ghost var nodes2 := d.nodes;
    AddedTrans(nodes0, nodes1, nodes2, [dist.path], rfp);
    if FreshPaths(nodes0, [dist.path] + (rfp + xfp)) {
      FreshRest(nodes1, nodes2, rfp, xfp);
    }
    var deployment :- AddDeployment(d, s, props);
    AddedTrans(nodes0, nodes2, d.nodes, [dist.path] + rfp, xfp);
    ExtendsTrans(nodes0, nodes1, nodes2);
    ExtendsTrans(nodes0, nodes2, d.nodes);
    assert [dist.path] + rfp + xfp == [dist.path] + (rfp + xfp);
    assert dist.path in nodes1;
    if records.Some? {
      assert records.value.0.path in nodes2 && records.value.1.path in nodes2;
    }
    r := Ok(CloudFrontStack(s, bucket, cert, fns, dist, records, deployment));
  }

  /** The A and AAAA records for the hosted zone's name, when a zone is given. */
  method AddRecords(d: Deployment, s: StackId, props: CloudFrontStackProps) returns (r: Result<Option<(Scope, Scope)>>)
    requires d.Valid() && s in d.stacks
    modifies d
    ensures d.Valid()
    ensures d.stacks == old(d.stacks) && d.stage == old(d.stage) && d.deps == old(d.deps)
    ensures d.parameters == old(d.parameters) && d.providers == old(d.providers)
    ensures Extends(old(d.nodes), d.nodes)
    ensures r.Ok? ==>
      && (r.value.Some? <==> props.hostedZone.Some?)
      && (r.value.Some? ==>
            && r.value.value.0 == Scope(s, ChildPath(d.stacks[s].path, "CFIPv4AddressRecord"))
            && r.value.value.1 == Scope(s, ChildPath(d.stacks[s].path, "CFIPv6AddressRecord"))
            && r.value.value.0.path in d.nodes && r.value.value.1.path in d.nodes
            && d.nodes[r.value.value.0.path] == Construct(s, ARecord(props.hostedZone.value.zoneName))
            && d.nodes[r.value.value.1.path] == Construct(s, AaaaRecord(props.hostedZone.value.zoneName)))
    ensures AddedWithin(old(d.nodes), d.nodes, RecordsFootprint(d.stacks[s].path, props))
    ensures FreshPaths(old(d.nodes), RecordsFootprint(d.stacks[s].path, props)) ==> r.Ok?
  {
    if props.hostedZone.None? {
      return Ok(None);
    }
    var zoneName := props.hostedZone.value.zoneName;
    ghost var fp := RecordsFootprint(d.stacks[s].path, props);
    ghost var free := FreshPaths(d.nodes, fp);
    assert free ==> fp[0] !in d.nodes && fp[1] !in d.nodes && fp[0] != fp[1];
    var a :- d.AddChild(d.StackScope(s), "CFIPv4AddressRecord", ARecord(zoneName));
    var aaaa :- d.AddChild(d.StackScope(s), "CFIPv6AddressRecord", AaaaRecord(zoneName));
    r := Ok(Some((a, aaaa)));
  }

  /** The deployment of the website assets into the bucket, when assets are given. */
  method AddDeployment(d: Deployment, s: StackId, props: CloudFrontStackProps) returns (r: Result<Option<Scope>>)
    requires d.Valid() && s in d.stacks
    modifies d
    ensures d.Valid()
    ensures d.stacks == old(d.stacks) && d.stage == old(d.stage) && d.deps == old(d.deps)
    ensures d.parameters == old(d.parameters) && d.providers == old(d.providers)
    ensures Extends(old(d.nodes), d.nodes)
    ensures r.Ok? ==>
      && (r.value.Some? <==> props.DeploysAssets())
      && (r.value.Some? ==>
            && r.value.value == Scope(s, ChildPath(d.stacks[s].path, "CFBucketDeployment"))
            && r.value.value.path in d.nodes
            && d.nodes[r.value.value.path] == Construct(s, BucketDeployment(props.websiteAssets.value)))
    ensures AddedWithin(old(d.nodes), d.nodes, DeploymentFootprint(d.stacks[s].path, props))
    ensures FreshPaths(old(d.nodes), DeploymentFootprint(d.stacks[s].path, props)) ==> r.Ok?
  {
    if !props.DeploysAssets() {
      return Ok(None);
    }
    ghost var fp := DeploymentFootprint(d.stacks[s].path, props);
    assert FreshPaths(d.nodes, fp) ==> fp[0] !in d.nodes;
    var bd :- d.AddChild(d.StackScope(s), "CFBucketDeployment", BucketDeployment(props.websiteAssets.value));
    r := Ok(Some(bd));
  }
}
