/**
 * The chart that hosts the adapter, and its validation hook `_validate`, which runs just
 * before synthesis: first every CloudFormation resource in the chart is transformed, then the
 * API objects that were in the chart before that have their attributes rewritten.
 */
module Chart {
  import opened Wrappers
  import opened Json
  import opened Base
  import opened ChartScope
  import opened Resources
  import opened Attributes
  import Adapter

  /** What `_validate` does to the chart's tree: phase 1 over the resources, then phase 2 over the objects there before it. */
  function Validated(t: Tree, registry: map<string, Mapper>, env: Env, cfnResources: seq<CfnResource>): (r: Outcome<Tree>)
    requires t.Valid()
    ensures TransformAll(t, registry, env, cfnResources).Failure? ==> r == Failure(TransformAll(t, registry, env, cfnResources).error)
    ensures r.Success? ==> TransformAll(t, registry, env, cfnResources).Success?
  {
    var transformed :- TransformAll(t, registry, env, cfnResources);
    RewriteAll(transformed, env, t.order)
  }

  /**
   * Phase 2 never rewrites what phase 1 created: the ACK resources, Secrets, ConfigMaps and
   * FieldExports come out of validation exactly as phase 1 made them.
   */
  lemma CreatedObjectsNotRewritten(t: Tree, registry: map<string, Mapper>, env: Env, cfnResources: seq<CfnResource>)
    requires t.Valid() && Validated(t, registry, env, cfnResources).Success?
    ensures var transformed := TransformAll(t, registry, env, cfnResources).value;
      var validated := Validated(t, registry, env, cfnResources).value;
      && validated.children.Keys == transformed.children.Keys
      && forall id :: id in transformed.children && id !in t.children ==> validated.children[id] == transformed.children[id]
  {
  }

  /**
   * The objects that were in the chart before validation keep their kind, name, namespace
   * and body and only gain patches; those whose kind bears no pods are not changed at all.
   */
  lemma ExistingObjectsOnlyGainPatches(t: Tree, registry: map<string, Mapper>, env: Env, cfnResources: seq<CfnResource>)
    requires t.Valid() && Validated(t, registry, env, cfnResources).Success?
    ensures var validated := Validated(t, registry, env, cfnResources).value;
      forall id :: id in t.children ==>
        && id in validated.children
        && validated.children[id] == t.children[id].(patches := validated.children[id].patches)
        && t.children[id].patches <= validated.children[id].patches
        && (!PodBearing(t.children[id].kind) ==> validated.children[id] == t.children[id])
  {
    var transformed := TransformAll(t, registry, env, cfnResources).value;
    assert Extends(t, transformed);
  }

  /**
   * The round trip between the phases: after phase 1, an environment variable whose value is
   * a token for `Fn::GetAtt [logicalId, attribute]`, for an attribute the mapper of resource
   * `logicalId` exports, is rewritten to read key `${namespace ?? 'default'}.${name}` (the
   * FieldExport's generated name) from the ConfigMap `${logicalId}ConfigMap`.
   */
  lemma ExportedAttributeRewritten(t: Tree, registry: map<string, Mapper>, env: Env, cfnResources: seq<CfnResource>,
                                   k: nat, e: nat, resourceName: string, path: string, envVar: Json)
    requires k < |cfnResources| && TransformAll(t, registry, env, cfnResources).Success?
    requires cfnResources[k].cfnType in registry && e < |registry[cfnResources[k].cfnType].exportMappings|
    requires envVar.JObject? && Truthy(Get(envVar, "value"))
    requires env.resolveToken(Get(envVar, "value").value) ==
      Some(JObject([Member("Fn::GetAtt", JArray([JString(cfnResources[k].logicalId),
                                                 JString(registry[cfnResources[k].cfnType].exportMappings[e].attribute)]))]))
    ensures var logicalId := cfnResources[k].logicalId;
      var attribute := registry[cfnResources[k].cfnType].exportMappings[e].attribute;
      EnvVarPatches(TransformAll(t, registry, env, cfnResources).value, env, resourceName, path, envVar) == Success([
        Remove(path),
        Add(path, ValueFromConfigMap(Get(envVar, "name"),
                                     env.namespace.GetOr("default") + "." + env.autoName(logicalId + attribute),
                                     Some(JString(env.autoName(logicalId + "ConfigMap")))))])
  {
    var res := cfnResources[k];
    var mapping := registry[res.cfnType].exportMappings[e];
    TransformAllPrefix(t, registry, env, cfnResources, k + 1);
    assert cfnResources[..k + 1][..k] == cfnResources[..k];
    var before := TransformAll(t, registry, env, cfnResources[..k]).value;
    TransformRegistersExports(before, registry, env, res);
    var built := Mapped(before, registry, env, res).value;
    var configMapName := ConfigMapChild(res.logicalId, env).obj.name;
    GetAttRoundTrip(TransformAll(t, registry, env, cfnResources).value, env, resourceName, path, envVar,
                    res.logicalId, mapping, built.resource, configMapName);
  }

  /**
   * Each object that was in the chart before validation gains exactly the patches phase 2
   * computes for it on the chart phase 1 left.
   */
  lemma ExistingObjectsGainTheirPatches(t: Tree, registry: map<string, Mapper>, env: Env, cfnResources: seq<CfnResource>)
    requires t.Valid() && Validated(t, registry, env, cfnResources).Success?
    ensures var transformed := TransformAll(t, registry, env, cfnResources).value;
      var validated := Validated(t, registry, env, cfnResources).value;
      forall id :: id in t.children ==>
        && id in transformed.children
        && ObjectPatches(transformed, env, id).Success?
        && validated.children[id].patches == t.children[id].patches + ObjectPatches(transformed, env, id).value
  {
    var transformed := TransformAll(t, registry, env, cfnResources).value;
    assert Extends(t, transformed);
    assert forall id :: id in t.order <==> id in t.children;
    RewriteAllAppends(transformed, env, t.order);
  }

  /**
   * The whole round trip, as `_validate` performs it: when variable `j` of container `i` of a
   * workload already in the chart holds a token for `Fn::GetAtt [logicalId, attribute]`, and
   * resource `logicalId`'s mapper exports `attribute`, the workload leaves validation carrying
   * the `remove` of that variable and the `add` of its ConfigMap reference, at its path.
   */
  lemma WorkloadEnvVarRewritten(t: Tree, registry: map<string, Mapper>, env: Env, cfnResources: seq<CfnResource>,
                                k: nat, e: nat, id: string, i: nat, j: nat)
    requires t.Valid() && Validated(t, registry, env, cfnResources).Success?
    requires id in t.children && PodBearing(t.children[id].kind)
    requires i < |ContainersOf(t.children[id]).1| && EnvVars(ContainersOf(t.children[id]).1[i]).Success?
    requires j < |EnvVars(ContainersOf(t.children[id]).1[i]).value|
    requires k < |cfnResources| && cfnResources[k].cfnType in registry && e < |registry[cfnResources[k].cfnType].exportMappings|
    requires var envVar := EnvVars(ContainersOf(t.children[id]).1[i]).value[j];
      && envVar.JObject? && Truthy(Get(envVar, "value"))
      && env.resolveToken(Get(envVar, "value").value) ==
           Some(JObject([Member("Fn::GetAtt", JArray([JString(cfnResources[k].logicalId),
                                                      JString(registry[cfnResources[k].cfnType].exportMappings[e].attribute)]))]))
    ensures var envVar := EnvVars(ContainersOf(t.children[id]).1[i]).value[j];
      var at := EnvVarPath(ContainersOf(t.children[id]).0, i, j);
      var logicalId := cfnResources[k].logicalId;
      var attribute := registry[cfnResources[k].cfnType].exportMappings[e].attribute;
      var patches := Validated(t, registry, env, cfnResources).value.children[id].patches;
      && Remove(at) in patches
      && Add(at, ValueFromConfigMap(Get(envVar, "name"),
                                    env.namespace.GetOr("default") + "." + env.autoName(logicalId + attribute),
                                    Some(JString(env.autoName(logicalId + "ConfigMap"))))) in patches
  {
    var transformed := TransformAll(t, registry, env, cfnResources).value;
    var obj := t.children[id];
    var path := ContainersOf(obj).0;
    var containers := ContainersOf(obj).1;
    var vars := EnvVars(containers[i]).value;
    var at := EnvVarPath(path, i, j);
    ExistingObjectsGainTheirPatches(t, registry, env, cfnResources);
    assert transformed.children[id] == obj by { assert Extends(t, transformed); }
    ContainersPatchesInclude(transformed, env, obj.name, path, containers, i);
    VarsPatchesInclude(transformed, env, obj.name, path, i, vars, j);
    ExportedAttributeRewritten(t, registry, env, cfnResources, k, e, obj.name, at, vars[j]);
  }

  /** The chart of this library: a cdk8s chart that hosts an adapter writing to it. */
  class Chart {
    const scope: ChartScope
    const adapter: Adapter.Adapter

    constructor(scope: ChartScope)
      ensures this.scope == scope && adapter.chart == scope
      ensures adapter.mappers == Adapter.Register(map[], Adapter.BuiltinRules())
    {
      this.scope := scope;
      adapter := new Adapter.Adapter(scope);
    }

    /**
     * `_validate`: both phases run on the same chart, the second only after the first has
     * succeeded; the error list returned is always empty, since failures are thrown.
     */
    method Validate() returns (r: Outcome<seq<string>>)
      requires scope.tree.Valid() && adapter.chart == scope
      modifies scope
      ensures r.Success? ==> r.value == []
      ensures Unit(r) == Unit(Validated(old(scope.tree), adapter.mappers, scope.env, scope.cfnResources))
      ensures r.Success? ==> scope.tree == Validated(old(scope.tree), adapter.mappers, scope.env, scope.cfnResources).value
    {
      var cfnResources := scope.cfnResources;
      var apiObjects := scope.tree.order;
      var transformed := adapter.TransformResources(cfnResources);
      if transformed.Failure? {
        return Failure(transformed.error);
      }
      var rewritten := adapter.TransformAttributes(apiObjects);
      if rewritten.Failure? {
        return Failure(rewritten.error);
      }
      return Success([]);
    }
  }
}
