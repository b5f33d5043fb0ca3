/**
 * Cross-region value propagation (helpers/cross-region.ts): finding or creating a companion
 * stack in the stage, and writing and reading one string under a namespaced parameter name.
 */
module CrossRegion {
  import opened Wrappers
  import opened Strings
  import opened Cdk
  import Graph

  /** Every parameter name is put under this prefix so that one grant covers all of them. */
  const ParameterNamespace: string := "/crossRegionParam"

  /** The region CloudFront requires certificates and edge functions to live in. */
  const CloudFrontRegion: string := "us-east-1"

  const ReaderResourceType: string := "Custom::CrossRegionStringParameterReader"

  const NoStageError: string :=
    "Stacks which use CloudFrontDnsValidatedCertificates must be part of a CDK app or stage."

  /**
   * Both region-aware facades take the direct path exactly when the stack's region is resolved at
   * definition time and is the CloudFront region.
   */
  predicate InCloudFrontRegion(region: Region) {
    match region
    case Unresolved => false
    case Resolved(name) => name == CloudFrontRegion
  }

  /** No two consecutive characters of s are both '/'. */
  predicate NoRepeatedSlash(s: string) {
    forall i :: 0 <= i < |s| - 1 ==> !(s[i] == '/' && s[i + 1] == '/')
  }

  /** `s.replace(/\/+/g, '/')`: every run of '/' becomes a single '/'. */
  function CollapseSlashes(s: string): (r: string)
    ensures NoRepeatedSlash(r)
    ensures |r| <= |s|
    ensures |s| > 0 ==> |r| > 0 && r[0] == s[0]
  {
    if |s| < 2 then s
    else if s[0] == '/' && s[1] == '/' then CollapseSlashes(s[1..])
    else [s[0]] + CollapseSlashes(s[1..])
  }

  /** A string without repeated slashes is left as it is... */
  lemma {:induction false} CollapseFixesClean(s: string)
    requires NoRepeatedSlash(s)
    ensures CollapseSlashes(s) == s
  {
    if |s| >= 2 {
      assert NoRepeatedSlash(s[1..]) by {
        forall i | 0 <= i < |s[1..]| - 1 ensures !(s[1..][i] == '/' && s[1..][i + 1] == '/') {
          assert s[1..][i] == s[i + 1] && s[1..][i + 1] == s[i + 2];
        }
      }
      CollapseFixesClean(s[1..]);
      assert [s[0]] + s[1..] == s;
    }
  }

  /** ...so collapsing is idempotent, and a string is its own collapse exactly when it is clean. */
  lemma CollapseIdempotent(s: string)
    ensures CollapseSlashes(CollapseSlashes(s)) == CollapseSlashes(s)
    ensures CollapseSlashes(s) == s <==> NoRepeatedSlash(s)
  {
    CollapseFixesClean(CollapseSlashes(s));
    if NoRepeatedSlash(s) {
      CollapseFixesClean(s);
    }
  }

  /** Collapsing never touches a clean prefix that does not end in '/'. */
  lemma {:induction false} CollapseAppend(a: string, b: string)
    requires |a| > 0 && NoRepeatedSlash(a) && a[|a| - 1] != '/'
    ensures CollapseSlashes(a + b) == a + CollapseSlashes(b)
  {
    if |a| == 1 {
      if |b| == 0 {
        assert a + b == a;
      } else {
        assert (a + b)[1..] == b;
      }
    } else {
      assert NoRepeatedSlash(a[1..]) by {
        forall i | 0 <= i < |a[1..]| - 1 ensures !(a[1..][i] == '/' && a[1..][i + 1] == '/') {
          assert a[1..][i] == a[i + 1] && a[1..][i + 1] == a[i + 2];
        }
      }
      CollapseAppend(a[1..], b);
      assert (a + b)[1..] == a[1..] + b;
      assert (a + b)[0] == a[0] && (a + b)[1] == a[1];
      assert [a[0]] + (a[1..] + CollapseSlashes(b)) == a + CollapseSlashes(b);
    }
  }

  /** The clean prefix survives collapsing whatever follows it. */
  lemma {:induction false} CollapseKeepsPrefix(a: string, b: string)
    requires |a| > 0 && NoRepeatedSlash(a)
    ensures StartsWith(CollapseSlashes(a + b), a)
  {
    var s := a + b;
    if |a| == 1 {
    } else {
      assert NoRepeatedSlash(a[1..]) by {
        forall i | 0 <= i < |a[1..]| - 1 ensures !(a[1..][i] == '/' && a[1..][i + 1] == '/') {
          assert a[1..][i] == a[i + 1] && a[1..][i + 1] == a[i + 2];
        }
      }
      CollapseKeepsPrefix(a[1..], b);
      assert s[1..] == a[1..] + b;
      assert s[0] == a[0] && s[1] == a[1];
      assert CollapseSlashes(s) == [a[0]] + CollapseSlashes(a[1..] + b);
      assert a == [a[0]] + a[1..];
    }
  }

  /** `namespaceParamName`: the name under the namespace prefix, with slash runs collapsed. */
  function NamespaceParamName(name: string): (r: string)
  {
    CollapseSlashes(ParameterNamespace + "/" + name)
  }

  /**
   * The namespaced name has no repeated '/' and lies under "/crossRegionParam/"; a clean name
   * that starts with '/' is simply prefixed, so distinct such names stay distinct.
   */
  lemma NamespaceParamNameShape(name: string)
    ensures NoRepeatedSlash(NamespaceParamName(name))
    ensures StartsWith(NamespaceParamName(name), ParameterNamespace + "/")
    ensures StartsWith(name, "/") && NoRepeatedSlash(name) ==> NamespaceParamName(name) == ParameterNamespace + name
  {
    var p := ParameterNamespace + "/";
    assert NoRepeatedSlash(p);
    assert ParameterNamespace + "/" + name == p + name;
    CollapseKeepsPrefix(p, name);
    if StartsWith(name, "/") && NoRepeatedSlash(name) {
      assert NoRepeatedSlash(ParameterNamespace);
      assert ParameterNamespace + "/" + name == ParameterNamespace + ("/" + name);
      CollapseAppend(ParameterNamespace, "/" + name);
      assert ("/" + name)[1..] == name;
      if |name| >= 2 {
        assert ("/" + name)[1] == '/';
      }
      CollapseFixesClean(name);
    }
  }

  /** The namespace itself is clean and ends in a letter, so it is never merged with the name. */
  lemma NamespaceSplit(name: string)
    ensures NamespaceParamName(name) == ParameterNamespace + CollapseSlashes("/" + name)
  {
    assert NoRepeatedSlash(ParameterNamespace);
    assert ParameterNamespace + "/" + name == ParameterNamespace + ("/" + name);
    CollapseAppend(ParameterNamespace, "/" + name);
  }

  /** A leading '/' before a name that already starts with '/' is absorbed. */
  lemma CollapseLeadingSlash(key: string)
    requires StartsWith(key, "/")
    ensures CollapseSlashes("/" + key) == CollapseSlashes(key)
  {
    assert ("/" + key)[0] == '/' && ("/" + key)[1] == key[0];
    assert ("/" + key)[1..] == key;
  }

  /** A name that starts with '/' is namespaced by plain prefixing, after collapsing. */
  lemma NamespaceOfRooted(key: string)
    requires StartsWith(key, "/")
    ensures NamespaceParamName(key) == ParameterNamespace + CollapseSlashes(key)
  {
    NamespaceSplit(key);
    CollapseLeadingSlash(key);
  }

  /** A clean rooted prefix of a name survives namespacing verbatim, right after the namespace. */
  lemma NamespacedPrefix(prefix: string, rest: string)
    requires StartsWith(prefix, "/") && NoRepeatedSlash(prefix)
    ensures StartsWith(NamespaceParamName(prefix + rest), ParameterNamespace + prefix)
  {
    NamespaceOfRooted(prefix + rest);
    CollapseKeepsPrefix(prefix, rest);
  }

  /** Namespacing twice changes nothing more than namespacing once would once collapsed. */
  lemma NamespaceParamNameStable(name: string)
    ensures CollapseSlashes(NamespaceParamName(name)) == NamespaceParamName(name)
  {
    CollapseIdempotent(ParameterNamespace + "/" + name);
  }

  /** The grant of the reader provider: every parameter under the namespace, in `region`. */
  function ParametersGrant(region: Region, account: string): (g: Grant)
    ensures g.region == region
  {
    Grant(region, account, ParameterNamespace + "/*")
  }

  /** The grant allows reading parameter `name` in `region` (its resource ends in a '*' glob). */
  predicate GrantCovers(g: Grant, region: Region, name: string) {
    && g.region == region
    && |g.resourceName| > 0 && g.resourceName[|g.resourceName| - 1] == '*'
    && StartsWith(name, g.resourceName[..|g.resourceName| - 1])
  }

  /** Every namespaced name lies within the namespace grant of the region it is read from. */
  lemma GrantCoversNamespace(region: Region, account: string, name: string)
    ensures GrantCovers(ParametersGrant(region, account), region, NamespaceParamName(name))
  {
    NamespaceParamNameShape(name);
    assert (ParameterNamespace + "/*")[..|ParameterNamespace + "/*"| - 1] == ParameterNamespace + "/";
  }

  /** Every reader provider registered in the stages was granted the namespace of some region. */
  ghost predicate ReaderGrants(d: Deployment)
    reads d
  {
    forall k :: k in d.providers && k.1 == ReaderResourceType ==>
      d.providers[k].grant.resourceName == ParameterNamespace + "/*"
  }

  /**
   * `createCrossRegionStack`: fails when the scope is not inside the stage; otherwise returns the
   * stage's child named stackId, creating it in `region` with the requester's account when absent,
   * and makes the requester's stack depend on it.
   */
  method CreateCrossRegionStack(d: Deployment, scope: Scope, region: string, stackId: string)
    returns (r: Result<StackId>)
    requires d.Valid() && scope.stack in d.stacks
    modifies d
    ensures d.Valid()
    ensures !old(d.InStage(scope.stack)) ==> r == Err(NoStageError) && unchanged(d)
    ensures old(d.InStage(scope.stack)) ==> r.Ok?
    ensures r.Ok? ==>
      && r.value in d.stacks && stackId in d.stage && d.stage[stackId] == r.value
      && d.deps == old(d.deps) + {(scope.stack, r.value)}
      && (stackId in old(d.stage) ==>
            r.value == old(d.stage[stackId]) && d.stacks == old(d.stacks) && d.stage == old(d.stage))
      && (stackId !in old(d.stage) ==>
            && r.value !in old(d.stacks)
            && d.stacks == old(d.stacks)[r.value := StackInfo(stackId, Env(old(d.stacks[scope.stack].env.account), Resolved(region)))]
            && d.stage == old(d.stage)[stackId := r.value])
    ensures r.Ok? && Graph.Acyclic(old(d.deps))
            && (stackId in old(d.stage) ==> Graph.Unreachable(old(d.deps), old(d.stage[stackId]), scope.stack))
            ==> Graph.Acyclic(d.deps)
    ensures d.nodes == old(d.nodes) && d.parameters == old(d.parameters) && d.providers == old(d.providers)
    ensures Extends(old(d.stage), d.stage) && Extends(old(d.stacks), d.stacks) && old(d.deps) <= d.deps
  {
    if !d.InStage(scope.stack) {
      return Err(NoStageError);
    }
    var s: StackId;
    if stackId in d.stage {
      s := d.stage[stackId];
    } else {
      var created := d.AddStack(stackId, Env(d.stacks[scope.stack].env.account, Resolved(region)));
      s := created.value;
      Graph.SinkReachesNothing(d.deps, s, scope.stack);
    }
    ghost var before := d.deps;
    d.AddDependency(scope.stack, s);
    if Graph.Acyclic(before) && Graph.Unreachable(before, s, scope.stack) {
      Graph.AddEdgeAcyclic(before, scope.stack, s);
    }
    r := Ok(s);
  }

  /** `storeCrossRegionString`: a 'Parameter' child of scope that writes the value in scope's region. */
  method StoreCrossRegionString(d: Deployment, scope: Scope, parameterName: string, stringValue: string)
    returns (r: Result<()>)
    requires d.Valid() && scope.stack in d.stacks
    modifies d
    ensures d.Valid()
    ensures r.Ok? <==> ChildPath(scope.path, "Parameter") !in old(d.nodes)
    ensures r.Err? ==> unchanged(d)
    ensures r.Ok? ==>
      && d.nodes == old(d.nodes)[ChildPath(scope.path, "Parameter") :=
                                 Construct(scope.stack, StringParameter(NamespaceParamName(parameterName), stringValue))]
      && d.parameters == old(d.parameters)[(old(d.RegionOf(scope.stack)), NamespaceParamName(parameterName)) := stringValue]
    ensures d.stacks == old(d.stacks) && d.stage == old(d.stage) && d.deps == old(d.deps)
    ensures d.providers == old(d.providers) && Extends(old(d.nodes), d.nodes)
  {
    var name := NamespaceParamName(parameterName);
    var p := d.AddChild(scope, "Parameter", StringParameter(name, stringValue));
    if p.Err? {
      return Err(p.error);
    }
    d.PutParameter(d.RegionOf(scope.stack), name, stringValue);
    r := Ok(());
  }

  /**
   * `getCrossRegionString`: registers (once per stack) the reader provider granted the namespace in
   * `region`, adds an 'ARNReader' child of scope that reads the namespaced name from `region` with the
   * refresh token passed through, and returns that reader's stringValue attribute.
   */
  method GetCrossRegionString(d: Deployment, scope: Scope, parameterName: string, region: Region,
                              refreshToken: Option<string>)
    returns (r: Result<string>)
    requires d.Valid() && ReaderGrants(d) && scope.stack in d.stacks
    modifies d
    ensures d.Valid() && ReaderGrants(d)
    ensures (scope.stack, ReaderResourceType) in old(d.providers) ==> d.providers == old(d.providers)
    ensures (scope.stack, ReaderResourceType) !in old(d.providers) ==>
      d.providers == old(d.providers)[(scope.stack, ReaderResourceType) :=
                       Provider(ReaderResourceType, ParametersGrant(region, old(d.stacks[scope.stack].env.account)))]
    ensures (scope.stack, ReaderResourceType) in d.providers
    ensures GrantCovers(d.providers[(scope.stack, ReaderResourceType)].grant, region, NamespaceParamName(parameterName))
            <==> d.providers[(scope.stack, ReaderResourceType)].grant.region == region
    ensures r.Ok? <==> ChildPath(scope.path, "ARNReader") !in old(d.nodes)
    ensures r.Err? ==> d.nodes == old(d.nodes)
    ensures r.Ok? ==>
      && d.nodes == old(d.nodes)[ChildPath(scope.path, "ARNReader") :=
           Construct(scope.stack, CrossRegionReader(
             ReaderResourceType,
             Attr(ChildPath(d.stacks[scope.stack].path, ReaderResourceType + "CustomResourceProviderHandler"), "Arn"),
             region, NamespaceParamName(parameterName), refreshToken))]
      && r.value == Attr(ChildPath(scope.path, "ARNReader"), "stringValue")
    ensures d.stacks == old(d.stacks) && d.stage == old(d.stage) && d.deps == old(d.deps)
    ensures d.parameters == old(d.parameters) && Extends(old(d.nodes), d.nodes)
  {
    var grant := ParametersGrant(region, d.stacks[scope.stack].env.account);
    var serviceToken := d.GetOrCreateProvider(scope.stack, ReaderResourceType, grant);
    var name := NamespaceParamName(parameterName);
    forall g: Grant | g.resourceName == ParameterNamespace + "/*"
      ensures GrantCovers(g, region, name) <==> g.region == region
    {
      GrantCoversNamespace(region, g.account, parameterName);
    }
    var reader := d.AddChild(scope, "ARNReader",
                             CrossRegionReader(ReaderResourceType, serviceToken, region, name, refreshToken));
    if reader.Err? {
      return Err(reader.error);
    }
    r := Ok(Attr(reader.value.path, "stringValue"));
  }
}
