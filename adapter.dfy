/**
 * The adapter object: its registry of mapping rules, and the two phases as methods that
 * change the chart step by step, each proved to do what the phase's specification function
 * says.
 */
module Adapter {
  import opened Wrappers
  import opened Json
  import opened Base
  import opened ChartScope
  import opened Resources
  import opened Attributes
  import Intrinsics
  import RdsDBInstance
  import Ec2SecurityGroup
  import RdsDBSubnetGroup
  import IamPolicy
  import IamRole
  import LambdaFunction
  import S3Bucket

  /** The built-in rules, in the order the constructor registers them. */
  function BuiltinRules(): seq<Mapper> {
    [ RdsDBInstance.Rule(), Ec2SecurityGroup.Rule(), RdsDBSubnetGroup.Rule(), IamPolicy.Rule(),
      IamRole.Rule(), LambdaFunction.Rule(), S3Bucket.Rule() ]
  }

  /** Registering `rules` in turn, each replacing whatever was stored under its type. */
  function Register(registry: map<string, Mapper>, rules: seq<Mapper>): map<string, Mapper>
    decreases |rules|
  {
    if rules == [] then registry
    else
      var last := rules[|rules| - 1];
      Register(registry, rules[..|rules| - 1])[last.cfnType := last]
  }

  lemma RegisterStep(registry: map<string, Mapper>, rules: seq<Mapper>, k: nat)
    requires k < |rules|
    ensures Register(registry, rules[..k + 1]) == Register(registry, rules[..k])[rules[k].cfnType := rules[k]]
  {
    assert rules[..k + 1][..k] == rules[..k];
  }

  /** The registered types are the earlier ones and those of the rules. */
  lemma {:induction false} RegisterKeys(registry: map<string, Mapper>, rules: seq<Mapper>)
    ensures Register(registry, rules).Keys == registry.Keys + set k | 0 <= k < |rules| :: rules[k].cfnType
    decreases |rules|
  {
    if rules != [] {
      var init := rules[..|rules| - 1];
      RegisterKeys(registry, init);
      assert (set k | 0 <= k < |rules| :: rules[k].cfnType) == (set k | 0 <= k < |init| :: init[k].cfnType) + {rules[|rules| - 1].cfnType};
    }
  }

  /** A type maps to the last rule registered for it. */
  lemma {:induction false} RegisterLast(registry: map<string, Mapper>, rules: seq<Mapper>, k: nat)
    requires k < |rules| && forall k' :: k < k' < |rules| ==> rules[k'].cfnType != rules[k].cfnType
    ensures rules[k].cfnType in Register(registry, rules) && Register(registry, rules)[rules[k].cfnType] == rules[k]
    decreases |rules|
  {
    if k < |rules| - 1 {
      RegisterLast(registry, rules[..|rules| - 1], k);
    }
  }

  /** A type no rule has keeps what was stored under it. */
  lemma {:induction false} RegisterOthers(registry: map<string, Mapper>, rules: seq<Mapper>, cfnType: string)
    requires cfnType in registry && forall k :: 0 <= k < |rules| ==> rules[k].cfnType != cfnType
    ensures cfnType in Register(registry, rules) && Register(registry, rules)[cfnType] == registry[cfnType]
    decreases |rules|
  {
    if rules != [] {
      RegisterOthers(registry, rules[..|rules| - 1], cfnType);
    }
  }

  /** The built-in registry maps each of the seven supported CloudFormation types to its rule, and nothing else. */
  lemma BuiltinRegistry()
    ensures var registry := Register(map[], BuiltinRules());
      && registry.Keys == {"AWS::RDS::DBInstance", "AWS::EC2::SecurityGroup", "AWS::RDS::DBSubnetGroup",
                           "AWS::IAM::Policy", "AWS::IAM::Role", "AWS::Lambda::Function", "AWS::S3::Bucket"}
      && registry["AWS::RDS::DBInstance"] == RdsDBInstance.Rule()
      && registry["AWS::EC2::SecurityGroup"] == Ec2SecurityGroup.Rule()
      && registry["AWS::RDS::DBSubnetGroup"] == RdsDBSubnetGroup.Rule()
      && registry["AWS::IAM::Policy"] == IamPolicy.Rule()
      && registry["AWS::IAM::Role"] == IamRole.Rule()
      && registry["AWS::Lambda::Function"] == LambdaFunction.Rule()
      && registry["AWS::S3::Bucket"] == S3Bucket.Rule()
  {
    var rules := BuiltinRules();
    assert rules[..0] == [];
    RegisterStep(map[], rules, 0);
    RegisterStep(map[], rules, 1);
    RegisterStep(map[], rules, 2);
    RegisterStep(map[], rules, 3);
    RegisterStep(map[], rules, 4);
    RegisterStep(map[], rules, 5);
    RegisterStep(map[], rules, 6);
    assert rules[..7] == rules;
  }

  /**
   * The DBInstance rule checks `dbClusterIdentifier` but patches `/spec/dbInstanceIdentifier`:
   * a resource that gives only `dbInstanceIdentifier` has that field overwritten by the
   * generated name, while one that gives only `dbClusterIdentifier` gets no name patch.
   */
  lemma DBInstanceNamePatch(props: Json, name: string)
    ensures !Truthy(Get(props, "dbClusterIdentifier")) ==>
      NamePatches(RdsDBInstance.Rule().nameMapping, props, name)[0] == Add("/spec/dbInstanceIdentifier", JString(name))
    ensures Truthy(Get(props, "dbClusterIdentifier")) ==> NamePatches(RdsDBInstance.Rule().nameMapping, props, name) == []
  {
  }

  lemma {:induction false} AddExportsFailsAtPrefix(t: Tree, logicalId: string, resource: ApiObject, configMapName: string, env: Env, exports: seq<ExportMapping>, k: nat)
    requires k <= |exports| && AddExports(t, logicalId, resource, configMapName, env, exports[..k]).Failure?
    ensures AddExports(t, logicalId, resource, configMapName, env, exports) == AddExports(t, logicalId, resource, configMapName, env, exports[..k])
    decreases |exports|
  {
    if k < |exports| {
      assert exports[..|exports| - 1][..k] == exports[..k];
      AddExportsFailsAtPrefix(t, logicalId, resource, configMapName, env, exports[..|exports| - 1], k);
    } else {
      assert exports[..k] == exports;
    }
  }

  lemma {:induction false} RewriteAllFailsAtPrefix(t: Tree, env: Env, ids: seq<string>, k: nat)
    requires forall id :: id in ids ==> id in t.children
    requires k <= |ids| && RewriteAll(t, env, ids[..k]).Failure?
    ensures RewriteAll(t, env, ids) == RewriteAll(t, env, ids[..k])
    decreases |ids|
  {
    if k < |ids| {
      assert ids[..|ids| - 1][..k] == ids[..k];
      RewriteAllFailsAtPrefix(t, env, ids[..|ids| - 1], k);
    } else {
      assert ids[..k] == ids;
    }
  }

  lemma {:induction false} ContainersFailAtPrefix(t: Tree, env: Env, name: string, path: string, containers: seq<Json>, k: nat)
    requires k <= |containers| && ContainersPatches(t, env, name, path, containers[..k]).Failure?
    ensures ContainersPatches(t, env, name, path, containers) == ContainersPatches(t, env, name, path, containers[..k])
    decreases |containers|
  {
    if k < |containers| {
      assert containers[..|containers| - 1][..k] == containers[..k];
      ContainersFailAtPrefix(t, env, name, path, containers[..|containers| - 1], k);
    } else {
      assert containers[..k] == containers;
    }
  }

  lemma {:induction false} VarsFailAtPrefix(t: Tree, env: Env, name: string, path: string, i: nat, vars: seq<Json>, k: nat)
    requires k <= |vars| && VarsPatches(t, env, name, path, i, vars[..k]).Failure?
    ensures VarsPatches(t, env, name, path, i, vars) == VarsPatches(t, env, name, path, i, vars[..k])
    decreases |vars|
  {
    if k < |vars| {
      assert vars[..|vars| - 1][..k] == vars[..k];
      VarsFailAtPrefix(t, env, name, path, i, vars[..|vars| - 1], k);
    } else {
      assert vars[..k] == vars;
    }
  }

  /** `AwsCdkAdapater`: the rules it knows, by CloudFormation type, and the chart it writes to. */
  class Adapter {
    const chart: ChartScope
    var mappers: map<string, Mapper>

    /** The adapter starts with the seven built-in rules registered. */
    constructor(chart: ChartScope)
      ensures this.chart == chart
      ensures mappers == Register(map[], BuiltinRules())
    {
      this.chart := chart;
      mappers := map[];
      new;
      ghost var rules := BuiltinRules();
      RegisterMapper(RdsDBInstance.Rule());
      RegisterStep(map[], rules, 0);
      RegisterMapper(Ec2SecurityGroup.Rule());
      RegisterStep(map[], rules, 1);
      RegisterMapper(RdsDBSubnetGroup.Rule());
      RegisterStep(map[], rules, 2);
      RegisterMapper(IamPolicy.Rule());
      RegisterStep(map[], rules, 3);
      RegisterMapper(IamRole.Rule());
      RegisterStep(map[], rules, 4);
      RegisterMapper(LambdaFunction.Rule());
      RegisterStep(map[], rules, 5);
      RegisterMapper(S3Bucket.Rule());
      RegisterStep(map[], rules, 6);
      assert rules[..7] == rules;
    }

    /** `registerMapper`: the rule is stored under its type, replacing any rule stored there. */
    method RegisterMapper(mapper: Mapper)
      modifies this
      ensures mappers == old(mappers)[mapper.cfnType := mapper]
    {
      mappers := mappers[mapper.cfnType := mapper];
    }

    /** `tryFindMapper`: the rule registered for a type, if any. */
    function TryFindMapper(cfnType: string): (m: Option<Mapper>)
      reads this
      ensures m.Some? <==> cfnType in mappers
      ensures m.Some? ==> m.value == mappers[cfnType]
    {
      if cfnType in mappers then Some(mappers[cfnType]) else None
    }

    /** `tryFindFieldExport`: the chart child with the FieldExport id of `logicalId`'s attribute. */
    function TryFindFieldExport(logicalId: string, attribute: string): (r: Option<ApiObject>)
      reads this, chart
      ensures r.Some? <==> FieldExportId(logicalId, attribute) in chart.tree.children
      ensures r.Some? ==> r.value == chart.tree.children[logicalId + attribute]
    {
      var id := FieldExportId(logicalId, attribute);
      if id in chart.tree.children then Some(chart.tree.children[id]) else None
    }

    /** `transformResources`: the resources in order; the first error thrown ends the run. */
    method TransformResources(cfnResources: seq<CfnResource>) returns (r: Outcome<()>)
      modifies chart
      ensures r == Unit(TransformAll(old(chart.tree), mappers, chart.env, cfnResources))
      ensures r.Success? ==> chart.tree == TransformAll(old(chart.tree), mappers, chart.env, cfnResources).value
    {
      ghost var t0 := chart.tree;
      for k := 0 to |cfnResources|
        invariant TransformAll(t0, mappers, chart.env, cfnResources[..k]).Success?
        invariant chart.tree == TransformAll(t0, mappers, chart.env, cfnResources[..k]).value
      {
        assert cfnResources[..k + 1][..k] == cfnResources[..k];
        r := TransformResource(cfnResources[k]);
        if r.Failure? {
          TransformAllFailsAtPrefix(t0, mappers, chart.env, cfnResources, k + 1);
          return;
        }
      }
      assert cfnResources[..|cfnResources|] == cfnResources;
      return Success(());
    }

    /** The body of `transformResources`' loop, for one resource. */
    method TransformResource(res: CfnResource) returns (r: Outcome<()>)
      modifies chart
      ensures r == Unit(Transform1(old(chart.tree), mappers, chart.env, res))
      ensures r.Success? ==> chart.tree == Transform1(old(chart.tree), mappers, chart.env, res).value
    {
      ghost var t0 := chart.tree;
      var mapper := TryFindMapper(res.cfnType);
      if mapper.None? {
        return Failure(UnmappedType(res.cfnType));
      }
      var m := mapper.value;
      var properties :- PropertiesOf(res);
      var cfnProperties :- Intrinsics.Resolve(Prop(""), properties, Intrinsics.RefContext(res.logicalId, m.refMapping, chart.tree.Names()), false);
      assert Resolved(t0, mappers, res) == Success(cfnProperties);
      var built :- m.mapFn(res.logicalId, cfnProperties, chart.env);
      var resource := built.resource;
      var extrasAdded :- chart.AddChildren(built.extras);
      var resourceAdded :- chart.AddChild(Child(res.logicalId, resource));
      AddNamePatches(res.logicalId, m.nameMapping, cfnProperties, resource.name);
      var configMap := ConfigMapChild(res.logicalId, chart.env);
      var configMapAdded :- chart.AddChild(configMap);
      r := AddFieldExports(res.logicalId, resource, configMap.obj.name, m.exportMappings);
    }

    /** The name patches of a mapped resource, added unless its name property is truthy. */
    method AddNamePatches(logicalId: string, mapping: NameMapping, cfnProperties: Json, name: string)
      requires logicalId in chart.tree.children
      modifies chart
      ensures chart.tree == old(chart.tree).AppendPatches(logicalId, NamePatches(mapping, cfnProperties, name))
    {
      if !Truthy(Get(cfnProperties, mapping.cfnProperty)) {
        var specPatch := Add(mapping.specPath, JString(name));
        var metadataPatch := Add("/metadata", Obj([Entry("name", Some(JString(name)))]));
        chart.AddJsonPatch(logicalId, specPatch);
        chart.AddJsonPatch(logicalId, metadataPatch);
        AppendPatchesTwice(old(chart.tree), logicalId, [specPatch], [metadataPatch]);
        assert [specPatch] + [metadataPatch] == NamePatches(mapping, cfnProperties, name);
      } else {
        AppendNothing(chart.tree, logicalId);
      }
    }

    /** One FieldExport per export mapping, in order, each writing to the ConfigMap `configMapName`. */
    method AddFieldExports(logicalId: string, resource: ApiObject, configMapName: string, exports: seq<ExportMapping>) returns (r: Outcome<()>)
      modifies chart
      ensures r == Unit(AddExports(old(chart.tree), logicalId, resource, configMapName, chart.env, exports))
      ensures r.Success? ==> chart.tree == AddExports(old(chart.tree), logicalId, resource, configMapName, chart.env, exports).value
    {
      ghost var t0 := chart.tree;
      for k := 0 to |exports|
        invariant AddExports(t0, logicalId, resource, configMapName, chart.env, exports[..k]).Success?
        invariant chart.tree == AddExports(t0, logicalId, resource, configMapName, chart.env, exports[..k]).value
      {
        assert exports[..k + 1][..k] == exports[..k];
        r := chart.AddChild(FieldExportChild(logicalId, exports[k], resource, configMapName, chart.env));
        if r.Failure? {
          AddExportsFailsAtPrefix(t0, logicalId, resource, configMapName, chart.env, exports, k + 1);
          return;
        }
      }
      assert exports[..|exports|] == exports;
      return Success(());
    }

    /** `transformAttributes`: the objects `apiObjects` (child ids) in order; the first error thrown ends the run. */
    method TransformAttributes(apiObjects: seq<string>) returns (r: Outcome<()>)
      requires forall id :: id in apiObjects ==> id in chart.tree.children
      modifies chart
      ensures r == Unit(RewriteAll(old(chart.tree), chart.env, apiObjects))
      ensures r.Success? ==> chart.tree == RewriteAll(old(chart.tree), chart.env, apiObjects).value
    {
      ghost var t0 := chart.tree;
      for k := 0 to |apiObjects|
        invariant RewriteAll(t0, chart.env, apiObjects[..k]).Success?
        invariant chart.tree == RewriteAll(t0, chart.env, apiObjects[..k]).value
      {
        assert apiObjects[..k + 1][..k] == apiObjects[..k];
        var id := apiObjects[k];
        var obj := chart.tree.children[id];
        var spec := Get(obj.body, "spec");
        if obj.kind in WorkloadKinds {
          r := PatchContainerEnvironment(id, ListOrEmpty(Chain(spec, ["template", "spec", "containers"])), "/spec/template/spec/containers");
        } else if obj.kind == "Pod" {
          r := PatchContainerEnvironment(id, ListOrEmpty(Chain(spec, ["containers"])), "/spec/containers");
        } else {
          r := Success(());
          assert chart.tree.AppendPatches(id, []) == chart.tree by {
            assert obj.(patches := obj.patches + []) == obj;
          }
        }
        if r.Failure? {
          RewriteAllFailsAtPrefix(t0, chart.env, apiObjects, k + 1);
          return;
        }
      }
      assert apiObjects[..|apiObjects|] == apiObjects;
      return Success(());
    }

    /**
     * `patchContainerEnvironment`: for container `i` and variable `j`, the patches for that
     * variable at `${path}/${i}/env/${j}` are appended to child `id`, in order. The FieldExports
     * are looked up in the chart as it is when the object's turn comes.
     */
    method PatchContainerEnvironment(id: string, containers: seq<Json>, path: string) returns (r: Outcome<()>)
      requires id in chart.tree.children
      modifies chart
      ensures r == Unit(ContainersPatches(old(chart.tree), chart.env, old(chart.tree).children[id].name, path, containers))
      ensures r.Success? ==>
        chart.tree == old(chart.tree).AppendPatches(id, ContainersPatches(old(chart.tree), chart.env, old(chart.tree).children[id].name, path, containers).value)
    {
      var exports := chart.tree;
      var name := exports.children[id].name;
      AppendNothing(exports, id);
      for i := 0 to |containers|
        invariant ContainersPatches(exports, chart.env, name, path, containers[..i]).Success?
        invariant chart.tree == exports.AppendPatches(id, ContainersPatches(exports, chart.env, name, path, containers[..i]).value)
      {
        assert containers[..i + 1][..i] == containers[..i];
        ghost var done := ContainersPatches(exports, chart.env, name, path, containers[..i]).value;
        var container := containers[i];
        if container.JNull? {
          ContainersFailAtPrefix(exports, chart.env, name, path, containers, i + 1);
          return Failure(ScriptError);
        }
        var envVars := ListOrEmpty(Get(container, "env"));
        r := PatchEnvVars(id, exports, name, path, i, envVars);
        if r.Failure? {
          ContainersFailAtPrefix(exports, chart.env, name, path, containers, i + 1);
          return;
        }
        AppendPatchesTwice(exports, id, done, VarsPatches(exports, chart.env, name, path, i, envVars).value);
      }
      assert containers[..|containers|] == containers;
      return Success(());
    }

    /** The inner loop of `patchContainerEnvironment`: the variables `envVars` of container `i`, in order. */
    method PatchEnvVars(id: string, exports: Tree, name: string, path: string, i: nat, envVars: seq<Json>) returns (r: Outcome<()>)
      requires id in chart.tree.children
      modifies chart
      ensures r == Unit(VarsPatches(exports, chart.env, name, path, i, envVars))
      ensures r.Success? ==> chart.tree == old(chart.tree).AppendPatches(id, VarsPatches(exports, chart.env, name, path, i, envVars).value)
    {
      ghost var t0 := chart.tree;
      AppendNothing(t0, id);
      for j := 0 to |envVars|
        invariant VarsPatches(exports, chart.env, name, path, i, envVars[..j]).Success?
        invariant chart.tree == t0.AppendPatches(id, VarsPatches(exports, chart.env, name, path, i, envVars[..j]).value)
      {
        assert envVars[..j + 1][..j] == envVars[..j];
        ghost var before := VarsPatches(exports, chart.env, name, path, i, envVars[..j]).value;
        var ps := EnvVarPatches(exports, chart.env, name, EnvVarPath(path, i, j), envVars[j]);
        if ps.Failure? {
          VarsFailAtPrefix(exports, chart.env, name, path, i, envVars, j + 1);
          return Failure(ps.error);
        }
        if ps.value != [] {
          chart.AddJsonPatch(id, ps.value[0]);
          chart.AddJsonPatch(id, ps.value[1]);
          AppendPatchesTwice(t0, id, before, [ps.value[0]]);
          AppendPatchesTwice(t0, id, before + [ps.value[0]], [ps.value[1]]);
          assert before + [ps.value[0]] + [ps.value[1]] == before + ps.value;
        } else {
          assert before + ps.value == before;
        }
      }
      assert envVars[..|envVars|] == envVars;
      return Success(());
    }
  }
}
