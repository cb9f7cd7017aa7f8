/**
 * Phase 1 of the adapter, `transformResources`, as functions over the chart's tree: each
 * CloudFormation resource is resolved, mapped to its ACK resource, given name patches when it
 * was not named, and given a ConfigMap and one FieldExport per runtime attribute.
 */
module Resources {
  import opened Wrappers
  import opened Json
  import opened Base
  import opened ChartScope
  import Intrinsics

  /** `fieldExportId`: the FieldExport of a resource's attribute is the child `logicalId + attribute`. */
  function FieldExportId(logicalId: string, attribute: string): (id: string)
    ensures |id| == |logicalId| + |attribute|
    ensures id[..|logicalId|] == logicalId && id[|logicalId|..] == attribute
  {
    logicalId + attribute
  }

  /** `fieldExportPath`: a controller status field as a path under `.status`. */
  function FieldExportPath(field: string): (path: string)
    ensures StartsWith(path, ".status.") && path[|".status."|..] == field
  {
    ".status." + field
  }

  /** The ConfigMap `${logicalId}ConfigMap` that a resource's FieldExports write to. */
  function ConfigMapChild(logicalId: string, env: Env): (c: Child)
    ensures c.id == logicalId + "ConfigMap" && c.obj.apiGroup == "" && c.obj.kind == "ConfigMap"
    ensures c.obj.name == env.autoName(logicalId + "ConfigMap") && c.obj.namespace == env.namespace
  {
    Child(logicalId + "ConfigMap", NewObject("", "ConfigMap", logicalId + "ConfigMap", None, Obj([]), env))
  }

  /** Where a FieldExport writes: the ConfigMap named `configMapName`. */
  function ExportTarget(configMapName: string): Json {
    Obj([Entry("kind", Some(JString("configmap"))), Entry("name", Some(JString(configMapName)))])
  }

  /** A FieldExport's spec: copy `.status.<field>` of `resource` into the ConfigMap. */
  function FieldExportSpec(mapping: ExportMapping, resource: ApiObject, configMapName: string): Json {
    Obj([
      Entry("from", Some(Obj([
        Entry("path", Some(JString(FieldExportPath(mapping.field)))),
        Entry("resource", Some(Obj([
          Entry("group", Some(JString(resource.apiGroup))),
          Entry("kind", Some(JString(resource.kind))),
          Entry("name", Some(JString(resource.name)))])))]))),
      Entry("to", Some(ExportTarget(configMapName)))])
  }

  /** The FieldExport created for one export mapping of a resource. */
  function FieldExportChild(logicalId: string, mapping: ExportMapping, resource: ApiObject, configMapName: string, env: Env): (c: Child)
    ensures c.id == FieldExportId(logicalId, mapping.attribute)
    ensures c.obj.apiGroup == "services.k8s.aws" && c.obj.kind == "FieldExport"
    ensures c.obj.name == env.autoName(c.id) && c.obj.namespace == env.namespace
  {
    var id := FieldExportId(logicalId, mapping.attribute);
    Child(id, NewObject("services.k8s.aws", "FieldExport", id, None,
                        Obj([Entry("spec", Some(FieldExportSpec(mapping, resource, configMapName)))]), env))
  }

  /**
   * A FieldExport's body reads back as built: `spec.from.path` is the status field's path,
   * `spec.from.resource` names the resource by group, kind and name, and `spec.to` names the
   * ConfigMap.
   */
  lemma FieldExportReadsBack(logicalId: string, mapping: ExportMapping, resource: ApiObject, configMapName: string, env: Env)
    ensures var body := FieldExportChild(logicalId, mapping, resource, configMapName, env).obj.body;
      && Chain(Some(body), ["spec", "from", "path"]) == Some(JString(".status." + mapping.field))
      && Chain(Some(body), ["spec", "from", "resource", "group"]) == Some(JString(resource.apiGroup))
      && Chain(Some(body), ["spec", "from", "resource", "kind"]) == Some(JString(resource.kind))
      && Chain(Some(body), ["spec", "from", "resource", "name"]) == Some(JString(resource.name))
      && Chain(Some(body), ["spec", "to", "kind"]) == Some(JString("configmap"))
      && Chain(Some(body), ["spec", "to", "name"]) == Some(JString(configMapName))
  {
    var resourceEntries := [
      Entry("group", Some(JString(resource.apiGroup))),
      Entry("kind", Some(JString(resource.kind))),
      Entry("name", Some(JString(resource.name)))];
    var fromEntries := [
      Entry("path", Some(JString(FieldExportPath(mapping.field)))),
      Entry("resource", Some(Obj(resourceEntries)))];
    var toEntries := [Entry("kind", Some(JString("configmap"))), Entry("name", Some(JString(configMapName)))];
    var specEntries := [Entry("from", Some(Obj(fromEntries))), Entry("to", Some(Obj(toEntries)))];
    ObjGet([Entry("spec", Some(Obj(specEntries)))], 0);
    ObjGet(specEntries, 0);
    ObjGet(specEntries, 1);
    ObjGet(fromEntries, 0);
    ObjGet(fromEntries, 1);
    ObjGet(resourceEntries, 0);
    ObjGet(resourceEntries, 1);
    ObjGet(resourceEntries, 2);
    ObjGet(toEntries, 0);
    ObjGet(toEntries, 1);
  }

  /**
   * The name patches: when the resolved properties do not give the name property a truthy
   * value, the generated name is added at the spec path and as `metadata.name`.
   */
  function NamePatches(mapping: NameMapping, props: Json, name: string): seq<Patch> {
    if Truthy(Get(props, mapping.cfnProperty)) then []
    else [Add(mapping.specPath, JString(name)), Add("/metadata", Obj([Entry("name", Some(JString(name)))]))]
  }

  /** The FieldExports of a resource, created in the order of its export mappings. */
  function AddExports(t: Tree, logicalId: string, resource: ApiObject, configMapName: string, env: Env, exports: seq<ExportMapping>): (r: Outcome<Tree>)
    ensures r.Success? ==> Extends(t, r.value)
    ensures r.Success? ==> |r.value.order| == |t.order| + |exports|
    ensures r.Success? ==> forall k :: 0 <= k < |exports| ==>
      var c := FieldExportChild(logicalId, exports[k], resource, configMapName, env);
      && r.value.order[|t.order| + k] == c.id
      && c.id in r.value.children && r.value.children[c.id] == c.obj
    ensures r.Success? && t.Valid() ==> r.value.Valid()
    decreases |exports|
  {
    if exports == [] then Success(t)
    else
      var t' :- AddExports(t, logicalId, resource, configMapName, env, exports[..|exports| - 1]);
      t'.Add(FieldExportChild(logicalId, exports[|exports| - 1], resource, configMapName, env))
  }

  /** `_toCloudFormation().Resources[0].Properties`: reading a template without properties throws. */
  function PropertiesOf(res: CfnResource): Outcome<Json> {
    if res.properties.Some? then Success(res.properties.value) else Failure(ScriptError)
  }

  /** The reference context resolution runs in: the chart's children as they are before the resource is mapped. */
  function ContextFor(t: Tree, registry: map<string, Mapper>, res: CfnResource): Intrinsics.RefContext
    requires res.cfnType in registry
  {
    Intrinsics.RefContext(res.logicalId, registry[res.cfnType].refMapping, t.Names())
  }

  /**
   * The resolved properties of a resource with a registered mapper. Resolution passes JSON
   * nulls through, where the code as written throws on them (`NullPropertiesDiverge`); on
   * every other input the two agree (`ResolvedAsWritten`).
   */
  function Resolved(t: Tree, registry: map<string, Mapper>, res: CfnResource): Outcome<Json>
    requires res.cfnType in registry
  {
    var props :- PropertiesOf(res);
    Intrinsics.Resolve(Prop(""), props, ContextFor(t, registry, res), false)
  }

  /** On properties without JSON null, resolution is that of the code as written. */
  lemma ResolvedAsWritten(t: Tree, registry: map<string, Mapper>, res: CfnResource)
    requires res.cfnType in registry && res.properties.Some? && !Intrinsics.HasNull(res.properties.value)
    ensures Resolved(t, registry, res) == Intrinsics.Resolve(Prop(""), res.properties.value, ContextFor(t, registry, res), true)
  {
    Intrinsics.NullSafeAgrees(Prop(""), res.properties.value, ContextFor(t, registry, res));
  }

  /**
   * Where the two differ: properties `{"tags": null}` resolve to themselves here, while the
   * code as written throws on them.
   */
  lemma NullPropertiesDiverge(t: Tree, registry: map<string, Mapper>, res: CfnResource)
    requires res.cfnType in registry && res.properties == Some(JObject([Member("tags", JNull)]))
    ensures Resolved(t, registry, res) == Success(res.properties.value)
    ensures Intrinsics.Resolve(Prop(""), res.properties.value, ContextFor(t, registry, res), true) == Failure(ScriptError)
  {
    Intrinsics.NullPropertyKept(ContextFor(t, registry, res));
    Intrinsics.NullPropertyThrows(ContextFor(t, registry, res));
  }

  /** What the resource's mapper builds from its resolved properties. */
  function Mapped(t: Tree, registry: map<string, Mapper>, env: Env, res: CfnResource): Outcome<Built>
    requires res.cfnType in registry
  {
    var resolved :- Resolved(t, registry, res);
    registry[res.cfnType].mapFn(res.logicalId, resolved, env)
  }

  /** One iteration of `transformResources`. */
  function Transform1(t: Tree, registry: map<string, Mapper>, env: Env, res: CfnResource): (r: Outcome<Tree>)
    ensures res.cfnType !in registry ==> r == Failure(UnmappedType(res.cfnType))
    ensures r.Success? ==> res.cfnType in registry && Mapped(t, registry, env, res).Success?
    ensures r.Success? ==> Extends(t, r.value)
    ensures r.Success? && t.Valid() ==> r.value.Valid()
  {
    if res.cfnType !in registry then Failure(UnmappedType(res.cfnType))
    else
      var mapper := registry[res.cfnType];
      var resolved :- Resolved(t, registry, res);
      var built :- mapper.mapFn(res.logicalId, resolved, env);
      var t1 :- t.AddAll(built.extras);
      var t2 :- t1.Add(Child(res.logicalId, built.resource));
      var t3 := t2.AppendPatches(res.logicalId, NamePatches(mapper.nameMapping, resolved, built.resource.name));
      var configMap := ConfigMapChild(res.logicalId, env);
      var t4 :- t3.Add(configMap);
      AddExports(t4, res.logicalId, built.resource, configMap.obj.name, env, mapper.exportMappings)
  }

  /** `transformResources` over `resources`, in order; the first error thrown ends it. */
  function TransformAll(t: Tree, registry: map<string, Mapper>, env: Env, resources: seq<CfnResource>): (r: Outcome<Tree>)
    ensures r.Success? ==> Extends(t, r.value)
    ensures r.Success? && t.Valid() ==> r.value.Valid()
    decreases |resources|
  {
    if resources == [] then Success(t)
    else
      var t' :- TransformAll(t, registry, env, resources[..|resources| - 1]);
      Transform1(t', registry, env, resources[|resources| - 1])
  }

  /**
   * A mapped resource is the child `logicalId` holding what its mapper built, followed by the
   * name patches: exactly `add specPath name` and `add /metadata {name}` when the resolved
   * properties leave the name property falsy, and none otherwise.
   */
  lemma TransformPatchesName(t: Tree, registry: map<string, Mapper>, env: Env, res: CfnResource)
    requires Transform1(t, registry, env, res).Success?
    ensures var built := Mapped(t, registry, env, res).value;
      var resolved := Resolved(t, registry, res).value;
      var mapper := registry[res.cfnType];
      var r := Transform1(t, registry, env, res).value;
      && res.logicalId !in t.children
      && res.logicalId in r.children
      && r.children[res.logicalId] == built.resource.(patches := built.resource.patches + NamePatches(mapper.nameMapping, resolved, built.resource.name))
      && (Truthy(Get(resolved, mapper.nameMapping.cfnProperty)) ==> r.children[res.logicalId] == built.resource)
      && (!Truthy(Get(resolved, mapper.nameMapping.cfnProperty)) ==>
            r.children[res.logicalId].patches == built.resource.patches +
              [Add(mapper.nameMapping.specPath, JString(built.resource.name)),
               Add("/metadata", Obj([Entry("name", Some(JString(built.resource.name)))]))])
  {
    var mapper := registry[res.cfnType];
    var resolved := Resolved(t, registry, res).value;
    var built := Mapped(t, registry, env, res).value;
    var t1 := t.AddAll(built.extras).value;
    var t2 := t1.Add(Child(res.logicalId, built.resource)).value;
    var t3 := t2.AppendPatches(res.logicalId, NamePatches(mapper.nameMapping, resolved, built.resource.name));
    var t4 := t3.Add(ConfigMapChild(res.logicalId, env)).value;
    assert Extends(t3, t4);
    assert built.resource.patches + [] == built.resource.patches;
  }

  /**
   * Every mapped resource gets the ConfigMap `${logicalId}ConfigMap`, and for each of its
   * mapper's export mappings, in order, one FieldExport with id `logicalId + attribute` that
   * copies the status field of the built resource into that ConfigMap.
   */
  lemma TransformRegistersExports(t: Tree, registry: map<string, Mapper>, env: Env, res: CfnResource)
    requires Transform1(t, registry, env, res).Success?
    ensures var built := Mapped(t, registry, env, res).value;
      var exports := registry[res.cfnType].exportMappings;
      var r := Transform1(t, registry, env, res).value;
      var configMap := ConfigMapChild(res.logicalId, env);
      && configMap.id in r.children && r.children[configMap.id] == configMap.obj
      && |r.order| == |t.order| + |built.extras| + 2 + |exports|
      && forall k :: 0 <= k < |exports| ==>
           var c := FieldExportChild(res.logicalId, exports[k], built.resource, configMap.obj.name, env);
           c.id in r.children && r.children[c.id] == c.obj
  {
    var mapper := registry[res.cfnType];
    var resolved := Resolved(t, registry, res).value;
    var built := Mapped(t, registry, env, res).value;
    var t1 := t.AddAll(built.extras).value;
    var t2 := t1.Add(Child(res.logicalId, built.resource)).value;
    var t3 := t2.AppendPatches(res.logicalId, NamePatches(mapper.nameMapping, resolved, built.resource.name));
    var t4 := t3.Add(ConfigMapChild(res.logicalId, env)).value;
  }

  /**
   * The extra objects a mapper builds (the password Secret of a database instance) are
   * created first, in the order built, each under its own id with its own object, and the
   * resource itself follows them.
   */
  lemma TransformAddsExtras(t: Tree, registry: map<string, Mapper>, env: Env, res: CfnResource)
    requires Transform1(t, registry, env, res).Success?
    ensures var extras := Mapped(t, registry, env, res).value.extras;
      var r := Transform1(t, registry, env, res).value;
      && |t.order| + |extras| < |r.order|
      && r.order[|t.order| + |extras|] == res.logicalId
      && forall k :: 0 <= k < |extras| ==>
           && r.order[|t.order| + k] == extras[k].id
           && extras[k].id in r.children && r.children[extras[k].id] == extras[k].obj
  {
    var mapper := registry[res.cfnType];
    var resolved := Resolved(t, registry, res).value;
    var built := Mapped(t, registry, env, res).value;
    var t1 := t.AddAll(built.extras).value;
    var t2 := t1.Add(Child(res.logicalId, built.resource)).value;
    var t3 := t2.AppendPatches(res.logicalId, NamePatches(mapper.nameMapping, resolved, built.resource.name));
    var t4 := t3.Add(ConfigMapChild(res.logicalId, env)).value;
    assert Extends(t1, t2) && Extends(t3, t4);
    forall k | 0 <= k < |built.extras|
      ensures built.extras[k].id in t1.children && t1.children[built.extras[k].id] == built.extras[k].obj
    {
      assert built.extras[k] in built.extras;
    }
  }

  /** An unmapped type throws before anything is created for that resource. */
  lemma UnmappedStopsAll(t: Tree, registry: map<string, Mapper>, env: Env, resources: seq<CfnResource>, k: nat)
    requires k < |resources| && resources[k].cfnType !in registry
    requires TransformAll(t, registry, env, resources[..k]).Success?
    ensures TransformAll(t, registry, env, resources).Failure?
    ensures TransformAll(t, registry, env, resources[..k + 1]) == Failure(UnmappedType(resources[k].cfnType))
  {
    assert resources[..k + 1][..k] == resources[..k];
    TransformAllFailsAtPrefix(t, registry, env, resources, k + 1);
  }

  /** Once the first `k` resources throw, the whole run throws the same error. */
  lemma {:induction false} TransformAllFailsAtPrefix(t: Tree, registry: map<string, Mapper>, env: Env, resources: seq<CfnResource>, k: nat)
    requires k <= |resources| && TransformAll(t, registry, env, resources[..k]).Failure?
    ensures TransformAll(t, registry, env, resources) == TransformAll(t, registry, env, resources[..k])
    decreases |resources|
  {
    if k < |resources| {
      assert resources[..|resources| - 1][..k] == resources[..k];
      TransformAllFailsAtPrefix(t, registry, env, resources[..|resources| - 1], k);
    } else {
      assert resources[..k] == resources;
    }
  }

  /**
   * When the whole run succeeds, so does every prefix of it, and the final tree extends what
   * each prefix produced: nothing a resource creates is later replaced.
   */
  lemma {:induction false} TransformAllPrefix(t: Tree, registry: map<string, Mapper>, env: Env, resources: seq<CfnResource>, k: nat)
    requires k <= |resources| && TransformAll(t, registry, env, resources).Success?
    ensures TransformAll(t, registry, env, resources[..k]).Success?
    ensures Extends(TransformAll(t, registry, env, resources[..k]).value, TransformAll(t, registry, env, resources).value)
    decreases |resources|
  {
    if k == |resources| {
      assert resources[..k] == resources;
    } else {
      var init := resources[..|resources| - 1];
      assert init[..k] == resources[..k];
      TransformAllPrefix(t, registry, env, init, k);
    }
  }
}
