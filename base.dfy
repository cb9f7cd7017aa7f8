/**
 * The records every resource mapper declares, the API objects the translation produces,
 * the errors it can throw, and the parts of the surrounding frameworks it depends on.
 */
module Base {
  import opened Wrappers
  import opened Json

  /** The CloudFormation property that names a resource, and where that name goes in the ACK spec. */
  datatype NameMapping = NameMapping(specPath: string, cfnProperty: string)

  /** A runtime attribute: the ACK status field that holds it and the CloudFormation attribute it answers. */
  datatype ExportMapping = ExportMapping(field: string, attribute: string)

  /** How a `Ref` to a resource is resolved: by its name or by its ARN. */
  datatype RefMapping = ByName | ByArn {
    /** The enumeration's string value. */
    function Value(): string {
      match this
      case ByName => "name"
      case ByArn => "arn"
    }
  }

  /** Every mapper resolves references by name unless it says otherwise. */
  const DefaultRefMapping: RefMapping := ByName

  lemma RefMappingValues(r: RefMapping)
    ensures r.Value() == "name" <==> r == ByName
    ensures r.Value() == "arn" <==> r == ByArn
  {
  }

  /** The key under which `JSON.stringify` hands a value to its replacer. */
  datatype Key = Prop(name: string) | Index(index: nat)

  /** Everything the translation can throw. */
  datatype Error =
    | UnmappedType(cfnType: string)
    | UnsupportedIntrinsic(intrinsic: Json, key: Key, logicalId: string)
    | UnknownChild(ref: Json)
    | UnsupportedRefMapping(mode: RefMapping)
    | FieldExportNotRegistered(attribute: Json, envName: Option<Json>, resource: string)
    | DuplicateChild(id: string)
    | ScriptError

  type Outcome<T> = Result<T, Error>

  /** Whether an operation threw, and what, forgetting the value it produced. */
  function Unit<T>(o: Outcome<T>): (r: Outcome<()>)
    ensures r.Success? <==> o.Success?
    ensures r.Failure? ==> r.error == o.error
  {
    if o.Success? then Success(()) else Failure(o.error)
  }

  /**
   * A manifest object in the chart: its API group and kind, its name and namespace, the rest
   * of its body (`spec`, `stringData`, ...) and the JSON patches added to it, in order.
   */
  datatype ApiObject = ApiObject(
    apiGroup: string,
    kind: string,
    name: string,
    namespace: Option<string>,
    body: Json,
    patches: seq<Patch>)
  {
    /** `toJson().spec`. */
    function Spec(): Option<Json> {
      Get(body, "spec")
    }
  }

  /** A child to add to the chart under `id`. */
  datatype Child = Child(id: string, obj: ApiObject)

  /**
   * What the surrounding frameworks supply: the names cdk8s generates for children by id, the
   * chart's namespace, JavaScript's `parseInt`, and the AWS CDK's token resolution (`None` for
   * a value that is not an unresolved token, otherwise what the token resolves to).
   */
  datatype Env = Env(
    autoName: string -> string,
    namespace: Option<string>,
    parseInt: Json -> Json,
    resolveToken: Json -> Option<Json>)

  /** The name an API object gets: `metadata.name` if that is a string, else a generated one. */
  function ObjectName(metadataName: Option<Json>, id: string, env: Env): (r: string)
    ensures metadataName.Some? && metadataName.value.JString? ==> r == metadataName.value.s
    ensures Nullish(metadataName) ==> r == env.autoName(id)
  {
    match metadataName
    case Some(JString(s)) => s
    case _ => env.autoName(id)
  }

  /** A new API object created under `id` in the chart's namespace, with no patches yet. */
  function NewObject(apiGroup: string, kind: string, id: string, metadataName: Option<Json>, body: Json, env: Env): ApiObject
  {
    ApiObject(apiGroup, kind, ObjectName(metadataName, id, env), env.namespace, body, [])
  }

  /** What a mapper's `map` creates: children made along the way (a Secret), then the ACK resource. */
  datatype Built = Built(extras: seq<Child>, resource: ApiObject)

  type MapFunction = (string, Json, Env) -> Outcome<Built>

  /** A mapping rule for one CloudFormation resource type. */
  datatype Mapper = Mapper(
    cfnType: string,
    exportMappings: seq<ExportMapping>,
    nameMapping: NameMapping,
    refMapping: RefMapping,
    mapFn: MapFunction)

  /** A mapper that keeps the default reference mode. */
  function NewMapper(cfnType: string, exportMappings: seq<ExportMapping>, nameMapping: NameMapping, mapFn: MapFunction): (m: Mapper)
    ensures m.refMapping == ByName
    ensures m.cfnType == cfnType && m.exportMappings == exportMappings && m.nameMapping == nameMapping && m.mapFn == mapFn
  {
    Mapper(cfnType, exportMappings, nameMapping, DefaultRefMapping, mapFn)
  }

  /** The ACK resource a mapper builds: `{metadata: {name}, spec}` under the resource's logical id. */
  function AckResource(apiGroup: string, kind: string, logicalId: string, metadataName: Option<Json>, spec: Json, env: Env): (r: ApiObject)
    ensures r.Spec() == Some(spec) && r.patches == []
    ensures r.apiGroup == apiGroup && r.kind == kind && r.namespace == env.namespace
    ensures r.name == ObjectName(metadataName, logicalId, env)
  {
    ObjGet([Entry("spec", Some(spec))], 0);
    NewObject(apiGroup, kind, logicalId, metadataName, Obj([Entry("spec", Some(spec))]), env)
  }
}
