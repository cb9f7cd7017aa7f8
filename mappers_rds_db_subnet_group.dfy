/** The mapping rule for `AWS::RDS::DBSubnetGroup`: an ACK RDS DBSubnetGroup. */
module RdsDBSubnetGroup {
  import opened Wrappers
  import opened Json
  import opened Base

  const CfnType := "AWS::RDS::DBSubnetGroup"

  const Names := NameMapping("/spec/name", "dbSubnetGroupName")

  function SpecEntries(props: Json): seq<Entry>
  {
    [ Entry("name", Get(props, "dbSubnetGroupName")),
      Entry("description", Get(props, "dbSubnetGroupDescription")),
      Entry("subnetIDs", Get(props, "subnetIds")),
      Entry("tags", Get(props, "tags")) ]
  }

  /** `map`: a field projection of the resolved properties. Reading a property of null throws. */
  function Map(logicalId: string, props: Json, env: Env): Outcome<Built>
  {
    if props.JNull? then Failure(ScriptError)
    else Success(Built([], AckResource("rds.services.k8s.aws", "DBSubnetGroup", logicalId,
                                       Get(props, "dbSubnetGroupName"), Obj(SpecEntries(props)), env)))
  }

  /** The rule as registered: no runtime attributes, named by `dbSubnetGroupName`, referenced by name. */
  function Rule(): (m: Mapper)
    ensures m.cfnType == "AWS::RDS::DBSubnetGroup" && m.exportMappings == []
    ensures m.nameMapping == NameMapping("/spec/name", "dbSubnetGroupName") && m.refMapping == ByName
    ensures m.mapFn == Map
  {
    NewMapper(CfnType, [], Names, Map)
  }

  /**
   * The subnet group is named by `dbSubnetGroupName` in its metadata and in `spec.name`; its
   * description comes from `dbSubnetGroupDescription`, `subnetIDs` from `subnetIds`, and the tags are copied.
   */
  lemma MapProjects(logicalId: string, props: Json, env: Env)
    ensures Map(logicalId, props, env).Success? <==> !props.JNull?
    ensures Map(logicalId, props, env).Success? ==>
      var b := Map(logicalId, props, env).value;
      && b.extras == []
      && b.resource.apiGroup == "rds.services.k8s.aws" && b.resource.kind == "DBSubnetGroup"
      && b.resource.name == ObjectName(Get(props, "dbSubnetGroupName"), logicalId, env)
      && b.resource.Spec().Some?
      && Get(b.resource.Spec().value, "name") == Get(props, "dbSubnetGroupName")
      && Get(b.resource.Spec().value, "description") == Get(props, "dbSubnetGroupDescription")
      && Get(b.resource.Spec().value, "subnetIDs") == Get(props, "subnetIds")
      && Get(b.resource.Spec().value, "tags") == Get(props, "tags")
  {
    ObjGet(SpecEntries(props), 0);
    ObjGet(SpecEntries(props), 1);
    ObjGet(SpecEntries(props), 2);
    ObjGet(SpecEntries(props), 3);
  }
}
