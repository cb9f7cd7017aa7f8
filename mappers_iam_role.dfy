/** The mapping rule for `AWS::IAM::Role`: an ACK IAM Role. */
module IamRole {
  import opened Wrappers
  import opened Json
  import opened Base

  const CfnType := "AWS::IAM::Role"

  const Names := NameMapping("/spec/name", "roleName")

  /**
   * `cfnPolicies.map(p => p.policyName)`: each policy's name, in order; a policy without one
   * gives an undefined element, which renders as null. Reading a property of null throws.
   */
  function PolicyNames(policies: seq<Json>): Outcome<seq<Json>>
  {
    if policies == [] then Success([])
    else if policies[0].JNull? then Failure(ScriptError)
    else
      var rest :- PolicyNames(policies[1..]);
      Success([Get(policies[0], "policyName").GetOr(JNull)] + rest)
  }

  /** `cfnPolicies ? cfnPolicies.map(...) : undefined`; only an array has `map`. */
  function Policies(cfnPolicies: Option<Json>): Outcome<Option<Json>>
  {
    if !Truthy(cfnPolicies) then Success(None)
    else if !cfnPolicies.value.JArray? then Failure(ScriptError)
    else
      var names :- PolicyNames(cfnPolicies.value.items);
      Success(Some(JArray(names)))
  }

  function SpecEntries(props: Json, policies: Option<Json>): seq<Entry>
  {
    [ Entry("assumeRolePolicyDocument", Get(props, "assumeRolePolicyDocument")),
      Entry("name", Get(props, "roleName")),
      Entry("policies", policies) ]
  }

  /** `map`: a field projection of the resolved properties plus the policy-name projection. */
  function Map(logicalId: string, props: Json, env: Env): Outcome<Built>
  {
    if props.JNull? then Failure(ScriptError)
    else
      var policies :- Policies(Get(props, "policies"));
      Success(Built([], AckResource("iam.services.k8s.aws", "Role", logicalId,
                                    Get(props, "roleName"), Obj(SpecEntries(props, policies)), env)))
  }

  /** The rule as registered: no runtime attributes, named by `roleName`, referenced by name. */
  function Rule(): (m: Mapper)
    ensures m.cfnType == "AWS::IAM::Role" && m.exportMappings == []
    ensures m.nameMapping == NameMapping("/spec/name", "roleName") && m.refMapping == ByName
    ensures m.mapFn == Map
  {
    NewMapper(CfnType, [], Names, Map)
  }

  /** The projection keeps one name per policy, in order, and fails exactly when a policy is null. */
  lemma {:induction false} PolicyNamesInOrder(policies: seq<Json>)
    ensures PolicyNames(policies).Success? <==> forall i :: 0 <= i < |policies| ==> !policies[i].JNull?
    ensures PolicyNames(policies).Success? ==>
      && |PolicyNames(policies).value| == |policies|
      && forall i :: 0 <= i < |policies| ==>
           PolicyNames(policies).value[i] == Get(policies[i], "policyName").GetOr(JNull)
  {
    if policies != [] {
      PolicyNamesInOrder(policies[1..]);
      assert forall i :: 1 <= i < |policies| ==> policies[i] == policies[1..][i - 1];
    }
  }

  /**
   * The role is named by `roleName` in its metadata and in `spec.name`; the trust policy is
   * copied; `spec.policies` lists each policy's `policyName` in order, and is absent when
   * `policies` is falsy.
   */
  lemma MapProjects(logicalId: string, props: Json, env: Env)
    ensures Map(logicalId, props, env).Success? <==>
      !props.JNull? && Policies(Get(props, "policies")).Success?
    ensures Map(logicalId, props, env).Success? ==>
      var b := Map(logicalId, props, env).value;
      && b.extras == []
      && b.resource.apiGroup == "iam.services.k8s.aws" && b.resource.kind == "Role"
      && b.resource.name == ObjectName(Get(props, "roleName"), logicalId, env)
      && b.resource.Spec().Some?
      && Get(b.resource.Spec().value, "name") == Get(props, "roleName")
      && Get(b.resource.Spec().value, "assumeRolePolicyDocument") == Get(props, "assumeRolePolicyDocument")
      && (!Truthy(Get(props, "policies")) ==> Get(b.resource.Spec().value, "policies") == None)
      && (Truthy(Get(props, "policies")) ==>
            var ps := Get(props, "policies").value.items;
            var out := Get(b.resource.Spec().value, "policies");
            && out.Some? && out.value.JArray? && |out.value.items| == |ps|
            && forall i :: 0 <= i < |ps| ==> out.value.items[i] == Get(ps[i], "policyName").GetOr(JNull))
  {
    if !props.JNull? && Policies(Get(props, "policies")).Success? {
      var policies := Policies(Get(props, "policies")).value;
      var es := SpecEntries(props, policies);
      ObjGet(es, 0);
      ObjGet(es, 1);
      ObjGet(es, 2);
      if Truthy(Get(props, "policies")) {
        PolicyNamesInOrder(Get(props, "policies").value.items);
      }
    }
  }
}
