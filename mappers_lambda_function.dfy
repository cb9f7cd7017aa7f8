/** The mapping rule for `AWS::Lambda::Function`: an ACK Lambda Function. */
module LambdaFunction {
  import opened Wrappers
  import opened Json
  import opened Base

  const CfnType := "AWS::Lambda::Function"

  const Names := NameMapping("/spec/name", "functionName")

  function CodeEntries(code: Json): seq<Entry>
  {
    [ Entry("imageUri", Get(code, "imageUri")) ]
  }

  function SpecEntries(props: Json, code: Json): seq<Entry>
  {
    [ Entry("code", Some(Obj(CodeEntries(code)))),
      Entry("name", Get(props, "functionName")),
      Entry("role", Get(props, "role")),
      Entry("handler", Get(props, "handler")),
      Entry("runtime", Get(props, "runtime")) ]
  }

  /**
   * `map`: a field projection of the resolved properties. Reading `code.imageUri` throws when
   * `code` is null or undefined, as reading any property of null does.
   */
  function Map(logicalId: string, props: Json, env: Env): Outcome<Built>
  {
    if props.JNull? || Nullish(Get(props, "code")) then Failure(ScriptError)
    else Success(Built([], AckResource("lambda.services.k8s.aws", "Function", logicalId,
                                       Get(props, "functionName"),
                                       Obj(SpecEntries(props, Get(props, "code").value)), env)))
  }

  /** The rule as registered: no runtime attributes, named by `functionName`, referenced by name. */
  function Rule(): (m: Mapper)
    ensures m.cfnType == "AWS::Lambda::Function" && m.exportMappings == []
    ensures m.nameMapping == NameMapping("/spec/name", "functionName") && m.refMapping == ByName
    ensures m.mapFn == Map
  {
    NewMapper(CfnType, [], Names, Map)
  }

  /**
   * The function is named by `functionName` in its metadata and in `spec.name`;
   * `spec.code.imageUri` is `code.imageUri`, and role, handler and runtime are copied.
   * Without a `code` property the mapper throws.
   */
  lemma MapProjects(logicalId: string, props: Json, env: Env)
    ensures Map(logicalId, props, env).Success? <==> !props.JNull? && !Nullish(Get(props, "code"))
    ensures Map(logicalId, props, env).Success? ==>
      var b := Map(logicalId, props, env).value;
      && b.extras == []
      && b.resource.apiGroup == "lambda.services.k8s.aws" && b.resource.kind == "Function"
      && b.resource.name == ObjectName(Get(props, "functionName"), logicalId, env)
      && b.resource.Spec().Some?
      && Get(b.resource.Spec().value, "name") == Get(props, "functionName")
      && Get(b.resource.Spec().value, "code").Some?
      && Get(Get(b.resource.Spec().value, "code").value, "imageUri") == Get(Get(props, "code").value, "imageUri")
      && Get(b.resource.Spec().value, "role") == Get(props, "role")
      && Get(b.resource.Spec().value, "handler") == Get(props, "handler")
      && Get(b.resource.Spec().value, "runtime") == Get(props, "runtime")
  {
    if !props.JNull? && !Nullish(Get(props, "code")) {
      var es := SpecEntries(props, Get(props, "code").value);
      ObjGet(es, 0);
      ObjGet(es, 1);
      ObjGet(es, 2);
      ObjGet(es, 3);
      ObjGet(es, 4);
      ObjGet(CodeEntries(Get(props, "code").value), 0);
    }
  }
}
