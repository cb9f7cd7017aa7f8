/** The mapping rule for `AWS::EC2::SecurityGroup`: an ACK EC2 SecurityGroup. */
module Ec2SecurityGroup {
  import opened Wrappers
  import opened Json
  import opened Base

  const CfnType := "AWS::EC2::SecurityGroup"

  const Names := NameMapping("/spec/name", "groupName")

  function SpecEntries(props: Json): seq<Entry>
  {
    [ Entry("name", Get(props, "groupName")),
      Entry("description", Get(props, "groupDescription")),
      Entry("vpcId", Get(props, "vpcId")) ]
  }

  /** `map`: a field projection of the resolved properties. Reading a property of null throws. */
  function Map(logicalId: string, props: Json, env: Env): Outcome<Built>
  {
    if props.JNull? then Failure(ScriptError)
    else Success(Built([], AckResource("ec2.services.k8s.aws", "SecurityGroup", logicalId,
                                       Get(props, "groupName"), Obj(SpecEntries(props)), env)))
  }

  /** The rule as registered: no runtime attributes, named by `groupName`, referenced by name. */
  function Rule(): (m: Mapper)
    ensures m.cfnType == "AWS::EC2::SecurityGroup" && m.exportMappings == []
    ensures m.nameMapping == NameMapping("/spec/name", "groupName") && m.refMapping == ByName
    ensures m.mapFn == Map
  {
    NewMapper(CfnType, [], Names, Map)
  }

  /**
   * The security group is named by `groupName` both in its metadata and in `spec.name`; its
   * description comes from `groupDescription` and `vpcId` is copied.
   */
  lemma MapProjects(logicalId: string, props: Json, env: Env)
    ensures Map(logicalId, props, env).Success? <==> !props.JNull?
    ensures Map(logicalId, props, env).Success? ==>
      var b := Map(logicalId, props, env).value;
      && b.extras == []
      && b.resource.apiGroup == "ec2.services.k8s.aws" && b.resource.kind == "SecurityGroup"
      && b.resource.name == ObjectName(Get(props, "groupName"), logicalId, env)
      && b.resource.Spec().Some?
      && Get(b.resource.Spec().value, "name") == Get(props, "groupName")
      && Get(b.resource.Spec().value, "description") == Get(props, "groupDescription")
      && Get(b.resource.Spec().value, "vpcId") == Get(props, "vpcId")
  {
    ObjGet(SpecEntries(props), 0);
    ObjGet(SpecEntries(props), 1);
    ObjGet(SpecEntries(props), 2);
  }
}
