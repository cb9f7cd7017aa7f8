/**
 * Phase 2 of the adapter, `transformAttributes`, as functions over the chart's tree: in the
 * containers of pod-bearing objects, an environment variable whose value is an `Fn::GetAtt`
 * token is replaced (a JSON Patch `remove` then `add` at its path) by one that reads
 * the attribute from the ConfigMap its FieldExport writes to.
 */
module Attributes {
  import opened Wrappers
  import opened Json
  import opened Base
  import opened ChartScope
  import Resources

  /** The kinds whose containers sit under `spec.template.spec.containers`. */
  const WorkloadKinds: set<string> := {"Deployment", "StatefulSet", "DaemonSet", "Job"}

  /** The kinds whose containers are rewritten at all. */
  predicate PodBearing(kind: string) {
    kind in WorkloadKinds || kind == "Pod"
  }

  /** `x ?? []` iterated as a list; only an array has items to visit. */
  function ListOrEmpty(o: Option<Json>): seq<Json> {
    if o.Some? && o.value.JArray? then o.value.items else []
  }

  /** `${path}/${i}/env/${j}`: the patch path of environment variable `j` of container `i`. */
  function EnvVarPath(path: string, i: nat, j: nat): string {
    path + "/" + Decimal(i) + "/env/" + Decimal(j)
  }

  /**
   * The FieldExport id a GetAtt's arguments `value` name, `${value[0]}${value[1]}`, when both
   * elements are strings (a string argument contributes its first two characters).
   */
  function GetAttExportId(args: Json): Option<string> {
    match args
    case JArray(items) =>
      if |items| >= 2 && items[0].JString? && items[1].JString? then Some(Resources.FieldExportId(items[0].s, items[1].s)) else None
    case JString(s) => if |s| >= 2 then Some(Resources.FieldExportId([s[0]], [s[1]])) else None
    case _ => None
  }

  /** The replacement variable: same name, value read from key `key` of the ConfigMap `configMapName`. */
  function ValueFromConfigMap(envName: Option<Json>, key: string, configMapName: Option<Json>): Json {
    Obj([
      Entry("name", envName),
      Entry("valueFrom", Some(Obj([
        Entry("configMapKeyRef", Some(Obj([
          Entry("key", Some(JString(key))),
          Entry("name", configMapName)])))])))])
  }

  /** The value of `envVar` is a truthy, unresolved token that resolves to an object whose first key starts with `Fn::GetAtt`. */
  predicate GetAttToken(env: Env, envVar: Json) {
    var value := Get(envVar, "value");
    && Truthy(value)
    && env.resolveToken(value.value).Some?
    && var resolved := env.resolveToken(value.value).value;
       resolved.JObject? && |resolved.members| > 0 && StartsWith(resolved.members[0].key, "Fn::GetAtt")
  }

  /**
   * The patches for one environment variable at patch path `path`: none for a variable that
   * is not a GetAtt token, and otherwise `remove` then `add` of the ConfigMap reference, which
   * needs the FieldExport the GetAtt names. `resourceName` names the object in the error.
   */
  function EnvVarPatches(t: Tree, env: Env, resourceName: string, path: string, envVar: Json): (r: Outcome<seq<Patch>>)
    ensures r.Success? ==> r.value == [] || (|r.value| == 2 && r.value[0] == Remove(path) && r.value[1].Add? && r.value[1].path == path)
    ensures r.Success? && r.value != [] ==> GetAttToken(env, envVar)
    ensures !Truthy(Get(envVar, "value")) && !envVar.JNull? ==> r == Success([])
  {
    if envVar.JNull? then Failure(ScriptError)
    else
      var value := Get(envVar, "value");
      if !Truthy(value) then Success([])
      else
        var token := env.resolveToken(value.value);
        if token.None? then Success([])
        else
          var resolved := token.value;
          match resolved
          case JNull => Failure(ScriptError)
          case JArray(items) => if items == [] then Failure(ScriptError) else Success([])
          case JObject(ms) =>
            if ms == [] then Failure(ScriptError)
            else if !StartsWith(ms[0].key, "Fn::GetAtt") then Success([])
            else if ms[0].value.JNull? then Failure(ScriptError)
            else
              var id := GetAttExportId(ms[0].value);
              if id.None? || id.value !in t.children then
                Failure(FieldExportNotRegistered(resolved, Get(envVar, "name"), resourceName))
              else
                var fieldExport := t.children[id.value];
                var spec := Get(fieldExport.body, "spec");
                if Nullish(spec) then Failure(ScriptError)
                else
                  var to := Get(spec.value, "to");
                  if Nullish(to) then Failure(ScriptError)
                  else
                    var key := fieldExport.namespace.GetOr("default") + "." + fieldExport.name;
                    Success([Remove(path), Add(path, ValueFromConfigMap(Get(envVar, "name"), key, Get(to.value, "name")))])
          case _ => Success([])
  }

  /** `container.env ?? []`: reading a property of a null container throws. */
  function EnvVars(container: Json): Outcome<seq<Json>> {
    if container.JNull? then Failure(ScriptError) else Success(ListOrEmpty(Get(container, "env")))
  }

  /** The patches for the first `|vars|` environment variables of container `i`, in order. */
  function VarsPatches(t: Tree, env: Env, resourceName: string, path: string, i: nat, vars: seq<Json>): (r: Outcome<seq<Patch>>)
    ensures r.Success? ==> |r.value| <= 2 * |vars|
    decreases |vars|
  {
    if vars == [] then Success([])
    else
      var before :- VarsPatches(t, env, resourceName, path, i, vars[..|vars| - 1]);
      var last :- EnvVarPatches(t, env, resourceName, EnvVarPath(path, i, |vars| - 1), vars[|vars| - 1]);
      Success(before + last)
  }

  /** The patches for container `i`. */
  function ContainerPatches(t: Tree, env: Env, resourceName: string, path: string, i: nat, container: Json): Outcome<seq<Patch>> {
    var vars :- EnvVars(container);
    VarsPatches(t, env, resourceName, path, i, vars)
  }

  /** `patchContainerEnvironment`: the patches for the containers under `path`, in order. */
  function ContainersPatches(t: Tree, env: Env, resourceName: string, path: string, containers: seq<Json>): Outcome<seq<Patch>>
    decreases |containers|
  {
    if containers == [] then Success([])
    else
      var before :- ContainersPatches(t, env, resourceName, path, containers[..|containers| - 1]);
      var last :- ContainerPatches(t, env, resourceName, path, |containers| - 1, containers[|containers| - 1]);
      Success(before + last)
  }

  /** Where an object's containers are, by kind: the path and the containers there. */
  function ContainersOf(obj: ApiObject): (string, seq<Json>)
    requires PodBearing(obj.kind)
  {
    var spec := Get(obj.body, "spec");
    if obj.kind in WorkloadKinds then ("/spec/template/spec/containers", ListOrEmpty(Chain(spec, ["template", "spec", "containers"])))
    else ("/spec/containers", ListOrEmpty(Chain(spec, ["containers"])))
  }

  /** The patches `transformAttributes` appends to child `id`: none unless its kind bears pods. */
  function ObjectPatches(t: Tree, env: Env, id: string): (r: Outcome<seq<Patch>>)
    requires id in t.children
    ensures !PodBearing(t.children[id].kind) ==> r == Success([])
  {
    var obj := t.children[id];
    if !PodBearing(obj.kind) then Success([])
    else
      var (path, containers) := ContainersOf(obj);
      ContainersPatches(t, env, obj.name, path, containers)
  }

  /** `transformAttributes` over the children `ids`, in order; the first error thrown ends it. */
  function RewriteAll(t: Tree, env: Env, ids: seq<string>): (r: Outcome<Tree>)
    requires forall id :: id in ids ==> id in t.children
    ensures r.Success? ==> r.value.order == t.order && r.value.children.Keys == t.children.Keys
    ensures r.Success? ==> forall id :: id in t.children ==>
      && r.value.children[id] == t.children[id].(patches := r.value.children[id].patches)
      && t.children[id].patches <= r.value.children[id].patches
    ensures r.Success? ==> forall id :: id in t.children && (id !in ids || !PodBearing(t.children[id].kind)) ==>
      r.value.children[id] == t.children[id]
    decreases |ids|
  {
    if ids == [] then Success(t)
    else
      var t' :- RewriteAll(t, env, ids[..|ids| - 1]);
      var id := ids[|ids| - 1];
      var ps :- ObjectPatches(t', env, id);
      Success(t'.AppendPatches(id, ps))
  }

  /**
   * What phase 2 adds: it succeeds exactly when every visited object's patches can be
   * computed, and then each visited object (each visited once) gains exactly its own
   * patches, computed on the chart as phase 2 found it.
   */
  lemma {:induction false} RewriteAllAppends(t: Tree, env: Env, ids: seq<string>)
    requires forall id :: id in ids ==> id in t.children
    ensures RewriteAll(t, env, ids).Success? <==> forall id :: id in ids ==> ObjectPatches(t, env, id).Success?
    ensures RewriteAll(t, env, ids).Success? && Distinct(ids) ==> forall id :: id in ids ==>
      RewriteAll(t, env, ids).value.children[id].patches == t.children[id].patches + ObjectPatches(t, env, id).value
    decreases |ids|
  {
    if ids != [] {
      var prefix := ids[..|ids| - 1];
      var last := ids[|ids| - 1];
      assert forall id :: id in ids <==> id in prefix || id == last;
      RewriteAllAppends(t, env, prefix);
      if RewriteAll(t, env, prefix).Success? {
        var t' := RewriteAll(t, env, prefix).value;
        assert PatchesOnly(t, t');
        ObjectPatchesIgnorePatches(t, t', env, last);
        if RewriteAll(t, env, ids).Success? && Distinct(ids) {
          assert last !in prefix;
          assert Distinct(prefix);
        }
      }
    }
  }

  /** A container's patches include those of each of its variables, at that variable's path. */
  lemma {:induction false} VarsPatchesInclude(t: Tree, env: Env, resourceName: string, path: string, i: nat, vars: seq<Json>, j: nat)
    requires j < |vars| && VarsPatches(t, env, resourceName, path, i, vars).Success?
    ensures EnvVarPatches(t, env, resourceName, EnvVarPath(path, i, j), vars[j]).Success?
    ensures forall p :: p in EnvVarPatches(t, env, resourceName, EnvVarPath(path, i, j), vars[j]).value ==>
      p in VarsPatches(t, env, resourceName, path, i, vars).value
    decreases |vars|
  {
    var n := |vars| - 1;
    if j < n {
      VarsPatchesInclude(t, env, resourceName, path, i, vars[..n], j);
      assert vars[..n][j] == vars[j];
    }
  }

  /** The patches under `path` include those of each container. */
  lemma {:induction false} ContainersPatchesInclude(t: Tree, env: Env, resourceName: string, path: string, containers: seq<Json>, i: nat)
    requires i < |containers| && ContainersPatches(t, env, resourceName, path, containers).Success?
    ensures ContainerPatches(t, env, resourceName, path, i, containers[i]).Success?
    ensures forall p :: p in ContainerPatches(t, env, resourceName, path, i, containers[i]).value ==>
      p in ContainersPatches(t, env, resourceName, path, containers).value
    decreases |containers|
  {
    var n := |containers| - 1;
    if i < n {
      ContainersPatchesInclude(t, env, resourceName, path, containers[..n], i);
      assert containers[..n][i] == containers[i];
    }
  }

  /** What one environment variable is rewritten to depends on the chart's objects, not on their patches. */
  lemma EnvVarPatchesIgnorePatches(t1: Tree, t2: Tree, env: Env, resourceName: string, path: string, envVar: Json)
    requires PatchesOnly(t1, t2)
    ensures EnvVarPatches(t1, env, resourceName, path, envVar) == EnvVarPatches(t2, env, resourceName, path, envVar)
  {
    forall id | id in t1.children
      ensures t2.children[id].body == t1.children[id].body && t2.children[id].name == t1.children[id].name
      ensures t2.children[id].namespace == t1.children[id].namespace
    {
      assert t2.children[id] == t1.children[id].(patches := t2.children[id].patches);
    }
  }

  lemma {:induction false} VarsPatchesIgnorePatches(t1: Tree, t2: Tree, env: Env, resourceName: string, path: string, i: nat, vars: seq<Json>)
    requires PatchesOnly(t1, t2)
    ensures VarsPatches(t1, env, resourceName, path, i, vars) == VarsPatches(t2, env, resourceName, path, i, vars)
    decreases |vars|
  {
    if vars != [] {
      VarsPatchesIgnorePatches(t1, t2, env, resourceName, path, i, vars[..|vars| - 1]);
      EnvVarPatchesIgnorePatches(t1, t2, env, resourceName, EnvVarPath(path, i, |vars| - 1), vars[|vars| - 1]);
    }
  }

  lemma {:induction false} ContainersPatchesIgnorePatches(t1: Tree, t2: Tree, env: Env, resourceName: string, path: string, containers: seq<Json>)
    requires PatchesOnly(t1, t2)
    ensures ContainersPatches(t1, env, resourceName, path, containers) == ContainersPatches(t2, env, resourceName, path, containers)
    decreases |containers|
  {
    if containers != [] {
      var n := |containers| - 1;
      ContainersPatchesIgnorePatches(t1, t2, env, resourceName, path, containers[..n]);
      if EnvVars(containers[n]).Success? {
        VarsPatchesIgnorePatches(t1, t2, env, resourceName, path, n, EnvVars(containers[n]).value);
      }
    }
  }

  /** The patches phase 2 computes for an object are the same however many patches the chart's objects already carry. */
  lemma ObjectPatchesIgnorePatches(t1: Tree, t2: Tree, env: Env, id: string)
    requires id in t1.children && PatchesOnly(t1, t2)
    ensures ObjectPatches(t1, env, id) == ObjectPatches(t2, env, id)
  {
    assert t2.children[id] == t1.children[id].(patches := t2.children[id].patches);
    if PodBearing(t1.children[id].kind) {
      var (path, containers) := ContainersOf(t1.children[id]);
      ContainersPatchesIgnorePatches(t1, t2, env, t1.children[id].name, path, containers);
    }
  }

  /**
   * The round trip between the phases: when the chart holds the FieldExport that phase 1
   * registers for attribute `attribute` of `logicalId`, an environment variable whose value is
   * a token for `Fn::GetAtt [logicalId, attribute]` is rewritten to read key
   * `${namespace ?? 'default'}.${fieldExport.name}` of the resource's ConfigMap.
   */
  lemma GetAttRoundTrip(t: Tree, env: Env, resourceName: string, path: string, envVar: Json,
                        logicalId: string, mapping: ExportMapping, resource: ApiObject, configMapName: string)
    requires var c := Resources.FieldExportChild(logicalId, mapping, resource, configMapName, env);
      c.id in t.children && t.children[c.id] == c.obj
    requires envVar.JObject? && Truthy(Get(envVar, "value"))
    requires env.resolveToken(Get(envVar, "value").value) ==
      Some(JObject([Member("Fn::GetAtt", JArray([JString(logicalId), JString(mapping.attribute)]))]))
    ensures EnvVarPatches(t, env, resourceName, path, envVar) == Success([
      Remove(path),
      Add(path, ValueFromConfigMap(Get(envVar, "name"),
                                   env.namespace.GetOr("default") + "." + env.autoName(Resources.FieldExportId(logicalId, mapping.attribute)),
                                   Some(JString(configMapName))))])
  {
    Resources.FieldExportReadsBack(logicalId, mapping, resource, configMapName, env);
    assert StartsWith("Fn::GetAtt", "Fn::GetAtt");
  }

  /** A variable whose value is not a token is never rewritten. */
  lemma PlainValueKept(t: Tree, env: Env, resourceName: string, path: string, envVar: Json)
    requires envVar.JObject? && Truthy(Get(envVar, "value"))
    requires env.resolveToken(Get(envVar, "value").value).None?
    ensures EnvVarPatches(t, env, resourceName, path, envVar) == Success([])
  {
  }

  /** A GetAtt for an attribute no FieldExport was registered for throws, naming the variable and the object. */
  lemma UnregisteredGetAttThrows(t: Tree, env: Env, resourceName: string, path: string, envVar: Json, logicalId: string, attribute: string)
    requires envVar.JObject? && Truthy(Get(envVar, "value"))
    requires env.resolveToken(Get(envVar, "value").value) ==
      Some(JObject([Member("Fn::GetAtt", JArray([JString(logicalId), JString(attribute)]))]))
    requires Resources.FieldExportId(logicalId, attribute) !in t.children
    ensures EnvVarPatches(t, env, resourceName, path, envVar) ==
      Failure(FieldExportNotRegistered(env.resolveToken(Get(envVar, "value").value).value, Get(envVar, "name"), resourceName))
  {
    assert StartsWith("Fn::GetAtt", "Fn::GetAtt");
  }

  /** `ps` is a run of `remove`/`add` pairs, each at the path of one of the first `n` variables of container `i`. */
  predicate Paired(ps: seq<Patch>, path: string, i: nat, n: nat) {
    |ps| % 2 == 0 && forall k :: 0 <= k < |ps| / 2 ==> PairAt(ps, k, path, i, n)
  }

  /** Patches `2k` and `2k + 1` of `ps` are `remove` then `add` at the path of one of the first `n` variables of container `i`. */
  predicate PairAt(ps: seq<Patch>, k: nat, path: string, i: nat, n: nat)
    requires 2 * k + 1 < |ps|
  {
    exists j :: 0 <= j < n && ps[2 * k] == Remove(EnvVarPath(path, i, j)) && ps[2 * k + 1].Add? && ps[2 * k + 1].path == EnvVarPath(path, i, j)
  }

  /** Every patch of a rewritten container is a `remove`/`add` pair at one of its variables' paths. */
  lemma {:induction false} VarsPatchesArePairs(t: Tree, env: Env, resourceName: string, path: string, i: nat, vars: seq<Json>)
    requires VarsPatches(t, env, resourceName, path, i, vars).Success?
    ensures Paired(VarsPatches(t, env, resourceName, path, i, vars).value, path, i, |vars|)
    decreases |vars|
  {
    if vars != [] {
      var init := vars[..|vars| - 1];
      VarsPatchesArePairs(t, env, resourceName, path, i, init);
      var before := VarsPatches(t, env, resourceName, path, i, init).value;
      var last := EnvVarPatches(t, env, resourceName, EnvVarPath(path, i, |vars| - 1), vars[|vars| - 1]).value;
      var ps := before + last;
      assert VarsPatches(t, env, resourceName, path, i, vars).value == ps;
      var n := |before| / 2;
      assert |before| == 2 * n;
      assert |ps| == 2 * n || |ps| == 2 * n + 2;
      assert |ps| / 2 == n || (|ps| / 2 == n + 1 && |last| == 2);
      forall k | 0 <= k < |ps| / 2
        ensures PairAt(ps, k, path, i, |vars|)
      {
        if k < n {
          assert PairAt(before, k, path, i, |init|);
          var j :| 0 <= j < |init| && before[2 * k] == Remove(EnvVarPath(path, i, j)) && before[2 * k + 1].Add? && before[2 * k + 1].path == EnvVarPath(path, i, j);
          assert ps[2 * k] == before[2 * k] && ps[2 * k + 1] == before[2 * k + 1];
        } else {
          assert ps[2 * k] == last[0] && ps[2 * k + 1] == last[1];
          assert ps[2 * k] == Remove(EnvVarPath(path, i, |vars| - 1));
        }
      }
    }
  }
}
