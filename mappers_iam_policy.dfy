/** The mapping rule for `AWS::IAM::Policy`: an ACK IAM Policy. */
module IamPolicy {
  import opened Wrappers
  import opened Json
  import opened Base

  const CfnType := "AWS::IAM::Policy"

  const Names := NameMapping("/spec/name", "policyName")

  function SpecEntries(props: Json): seq<Entry>
  {
    [ Entry("name", Get(props, "policyName")),
      Entry("policyDocument", Get(props, "policyDocument")) ]
  }

  /** `map`: a field projection of the resolved properties. Reading a property of null throws. */
  function Map(logicalId: string, props: Json, env: Env): Outcome<Built>
  {
    if props.JNull? then Failure(ScriptError)
    else Success(Built([], AckResource("iam.services.k8s.aws", "Policy", logicalId,
                                       Get(props, "policyName"), Obj(SpecEntries(props)), env)))
  }

  /** The rule as registered: no runtime attributes, named by `policyName`, referenced by name. */
  function Rule(): (m: Mapper)
    ensures m.cfnType == "AWS::IAM::Policy" && m.exportMappings == []
    ensures m.nameMapping == NameMapping("/spec/name", "policyName") && m.refMapping == ByName
    ensures m.mapFn == Map
  {
    NewMapper(CfnType, [], Names, Map)
  }

  /** The policy is named by `policyName` in its metadata and in `spec.name`; its document is copied. */
  lemma MapProjects(logicalId: string, props: Json, env: Env)
    ensures Map(logicalId, props, env).Success? <==> !props.JNull?
    ensures Map(logicalId, props, env).Success? ==>
      var b := Map(logicalId, props, env).value;
      && b.extras == []
      && b.resource.apiGroup == "iam.services.k8s.aws" && b.resource.kind == "Policy"
      && b.resource.name == ObjectName(Get(props, "policyName"), logicalId, env)
      && b.resource.Spec().Some?
      && Get(b.resource.Spec().value, "name") == Get(props, "policyName")
      && Get(b.resource.Spec().value, "policyDocument") == Get(props, "policyDocument")
  {
    ObjGet(SpecEntries(props), 0);
    ObjGet(SpecEntries(props), 1);
  }
}
