/** The mapping rule for `AWS::S3::Bucket`: an ACK S3 Bucket with its Lambda notifications. */
module S3Bucket {
  import opened Wrappers
  import opened Json
  import opened Base

  const CfnType := "AWS::S3::Bucket"

  const Names := NameMapping("/spec/name", "bucketName")

  /**
   * What `for (const config of cfnNotifications.lambdaConfigurations ?? [])` iterates over when
   * `notificationConfiguration` is truthy. An empty string iterates over nothing; the characters
   * of any other string have no `filter`, and numbers, booleans and objects are not iterable,
   * so all of those throw.
   */
  function LambdaConfigurationList(cfnNotifications: Option<Json>): Outcome<seq<Json>>
  {
    if !Truthy(cfnNotifications) then Success([])
    else
      var configs := Get(cfnNotifications.value, "lambdaConfigurations");
      if Nullish(configs) then Success([])
      else match configs.value
        case JArray(items) => Success(items)
        case JString(s) => if s == "" then Success([]) else Failure(ScriptError)
        case _ => Failure(ScriptError)
  }

  /** `rules.map(r => ({ name: r.name, value: r.value }))`. */
  function FilterRules(rules: seq<Json>): Outcome<seq<Json>>
  {
    if rules == [] then Success([])
    else if rules[0].JNull? then Failure(ScriptError)
    else
      var rest :- FilterRules(rules[1..]);
      Success([Obj([Entry("name", Get(rules[0], "name")), Entry("value", Get(rules[0], "value"))])] + rest)
  }

  function ConfigurationEntries(config: Json, filterRules: seq<Json>): seq<Entry>
  {
    [ Entry("events", Some(JArray([Get(config, "event").GetOr(JNull)]))),
      Entry("filter", Some(Obj([Entry("key", Some(Obj([Entry("filterRules", Some(JArray(filterRules)))])))]))),
      Entry("lambdaFunctionArn", Get(config, "function")) ]
  }

  /**
   * One ACK notification for one CloudFormation Lambda configuration. Reading
   * `config.filter.s3Key.rules` throws when a step is null or undefined, and `rules.map`
   * throws unless `rules` is an array.
   */
  function LambdaConfiguration(config: Json): Outcome<Json>
  {
    if config.JNull? then Failure(ScriptError)
    else
      var filter := Get(config, "filter");
      if Nullish(filter) then Failure(ScriptError)
      else
        var s3Key := Get(filter.value, "s3Key");
        if Nullish(s3Key) then Failure(ScriptError)
        else
          var rules := Get(s3Key.value, "rules");
          if rules.None? || !rules.value.JArray? then Failure(ScriptError)
          else
            var filterRules :- FilterRules(rules.value.items);
            Success(Obj(ConfigurationEntries(config, filterRules)))
  }

  /** The notifications for a list of Lambda configurations: the first failure, or one each. */
  function LambdaConfigurations(configs: seq<Json>): Outcome<seq<Json>>
  {
    if configs == [] then Success([])
    else
      var first :- LambdaConfiguration(configs[0]);
      var rest :- LambdaConfigurations(configs[1..]);
      Success([first] + rest)
  }

  /** The loop of `map` that pushes one notification per configuration into a local array. */
  method BuildLambdaConfigurations(configs: seq<Json>) returns (r: Outcome<seq<Json>>)
    ensures r == LambdaConfigurations(configs)
  {
    var out: seq<Json> := [];
    var i := 0;
    while i < |configs|
      invariant 0 <= i <= |configs|
      invariant forall k :: 0 <= k < i ==> LambdaConfiguration(configs[k]).Success?
      invariant |out| == i && forall k :: 0 <= k < i ==> out[k] == LambdaConfiguration(configs[k]).value
    {
      var config := LambdaConfiguration(configs[i]);
      if config.Failure? {
        FirstFailure(configs, i);
        return Failure(config.error);
      }
      out := out + [config.value];
      i := i + 1;
    }
    OnePerConfiguration(configs);
    assert out == LambdaConfigurations(configs).value;
    return Success(out);
  }

  /** When the configurations before `i` convert and the one at `i` does not, its error is the result. */
  lemma {:induction false} FirstFailure(configs: seq<Json>, i: nat)
    requires i < |configs|
    requires forall k :: 0 <= k < i ==> LambdaConfiguration(configs[k]).Success?
    requires LambdaConfiguration(configs[i]).Failure?
    ensures LambdaConfigurations(configs) == Failure(LambdaConfiguration(configs[i]).error)
  {
    if i > 0 {
      assert forall k :: 0 <= k < i - 1 ==> configs[1..][k] == configs[k + 1];
      FirstFailure(configs[1..], i - 1);
    }
  }

  /** Exactly one notification per configuration, in the same order, or a failure. */
  lemma {:induction false} OnePerConfiguration(configs: seq<Json>)
    ensures LambdaConfigurations(configs).Success? <==>
      forall k :: 0 <= k < |configs| ==> LambdaConfiguration(configs[k]).Success?
    ensures LambdaConfigurations(configs).Success? ==>
      && |LambdaConfigurations(configs).value| == |configs|
      && forall k :: 0 <= k < |configs| ==>
           LambdaConfigurations(configs).value[k] == LambdaConfiguration(configs[k]).value
  {
    if configs != [] {
      OnePerConfiguration(configs[1..]);
      assert forall k :: 1 <= k < |configs| ==> configs[k] == configs[1..][k - 1];
    }
  }

  /** Each rule keeps its name and value, in order. */
  lemma {:induction false} FilterRulesInOrder(rules: seq<Json>)
    ensures FilterRules(rules).Success? <==> forall k :: 0 <= k < |rules| ==> !rules[k].JNull?
    ensures FilterRules(rules).Success? ==>
      && |FilterRules(rules).value| == |rules|
      && forall k :: 0 <= k < |rules| ==>
           && Get(FilterRules(rules).value[k], "name") == Get(rules[k], "name")
           && Get(FilterRules(rules).value[k], "value") == Get(rules[k], "value")
  {
    if rules != [] {
      FilterRulesInOrder(rules[1..]);
      assert forall k :: 1 <= k < |rules| ==> rules[k] == rules[1..][k - 1];
      if !rules[0].JNull? {
        var es := [Entry("name", Get(rules[0], "name")), Entry("value", Get(rules[0], "value"))];
        ObjGet(es, 0);
        ObjGet(es, 1);
      }
    }
  }

  /**
   * A converted configuration has `events == [config.event]`, the rules' names and values as
   * its key filter, and `config.function` as the function's ARN.
   */
  lemma ConfigurationFields(config: Json)
    ensures LambdaConfiguration(config).Success? ==>
      var c := LambdaConfiguration(config).value;
      var rules := Get(Get(Get(config, "filter").value, "s3Key").value, "rules").value.items;
      && Get(c, "events") == Some(JArray([Get(config, "event").GetOr(JNull)]))
      && Get(c, "lambdaFunctionArn") == Get(config, "function")
      && Get(c, "filter").Some? && Get(Get(c, "filter").value, "key").Some?
      && Get(Get(Get(c, "filter").value, "key").value, "filterRules") == Some(JArray(FilterRules(rules).value))
  {
    if LambdaConfiguration(config).Success? {
      var rules := Get(Get(Get(config, "filter").value, "s3Key").value, "rules").value.items;
      var fr := FilterRules(rules).value;
      var es := ConfigurationEntries(config, fr);
      ObjGet(es, 0);
      ObjGet(es, 1);
      ObjGet(es, 2);
      var key := [Entry("filterRules", Some(JArray(fr)))];
      ObjGet(key, 0);
      ObjGet([Entry("key", Some(Obj(key)))], 0);
    }
  }

  function NotificationEntries(configurations: seq<Json>): seq<Entry>
  {
    [ Entry("lambdaFunctionConfigurations", if |configurations| > 0 then Some(JArray(configurations)) else None) ]
  }

  function SpecEntries(props: Json, configurations: seq<Json>): seq<Entry>
  {
    [ Entry("name", Get(props, "bucketName")),
      Entry("notification", Some(Obj(NotificationEntries(configurations)))) ]
  }

  /** `map`: the bucket's name and its Lambda notifications, undefined when there are none. */
  function Map(logicalId: string, props: Json, env: Env): Outcome<Built>
  {
    if props.JNull? then Failure(ScriptError)
    else
      var configs :- LambdaConfigurationList(Get(props, "notificationConfiguration"));
      var configurations :- LambdaConfigurations(configs);
      Success(Built([], AckResource("s3.services.k8s.aws", "Bucket", logicalId,
                                    Get(props, "bucketName"), Obj(SpecEntries(props, configurations)), env)))
  }

  /** The rule as registered: no runtime attributes, named by `bucketName`, referenced by name. */
  function Rule(): (m: Mapper)
    ensures m.cfnType == "AWS::S3::Bucket" && m.exportMappings == []
    ensures m.nameMapping == NameMapping("/spec/name", "bucketName") && m.refMapping == ByName
    ensures m.mapFn == Map
  {
    NewMapper(CfnType, [], Names, Map)
  }

  /**
   * The bucket is named by `bucketName` in its metadata and in `spec.name`, and
   * `spec.notification.lambdaFunctionConfigurations` holds one notification per configuration,
   * in order, or is undefined when there are none (in particular without a
   * `notificationConfiguration`).
   */
  lemma MapProjects(logicalId: string, props: Json, env: Env)
    ensures Map(logicalId, props, env).Success? <==>
      && !props.JNull?
      && LambdaConfigurationList(Get(props, "notificationConfiguration")).Success?
      && LambdaConfigurations(LambdaConfigurationList(Get(props, "notificationConfiguration")).value).Success?
    ensures !props.JNull? && !Truthy(Get(props, "notificationConfiguration")) ==> Map(logicalId, props, env).Success?
    ensures Map(logicalId, props, env).Success? ==>
      var b := Map(logicalId, props, env).value;
      var configs := LambdaConfigurationList(Get(props, "notificationConfiguration")).value;
      && b.extras == []
      && b.resource.apiGroup == "s3.services.k8s.aws" && b.resource.kind == "Bucket"
      && b.resource.name == ObjectName(Get(props, "bucketName"), logicalId, env)
      && b.resource.Spec().Some?
      && Get(b.resource.Spec().value, "name") == Get(props, "bucketName")
      && Get(b.resource.Spec().value, "notification").Some?
      && var out := Get(Get(b.resource.Spec().value, "notification").value, "lambdaFunctionConfigurations");
         && (configs == [] ==> out == None)
         && (configs != [] ==>
               && out.Some? && out.value.JArray? && |out.value.items| == |configs|
               && forall k :: 0 <= k < |configs| ==>
                    LambdaConfiguration(configs[k]).Success? && out.value.items[k] == LambdaConfiguration(configs[k]).value)
  {
    if !props.JNull? {
      var list := LambdaConfigurationList(Get(props, "notificationConfiguration"));
      if list.Success? && LambdaConfigurations(list.value).Success? {
        var configurations := LambdaConfigurations(list.value).value;
        OnePerConfiguration(list.value);
        var es := SpecEntries(props, configurations);
        ObjGet(es, 0);
        ObjGet(es, 1);
        ObjGet(NotificationEntries(configurations), 0);
      }
    }
  }
}
