/**
 * The mapping rule for `AWS::RDS::DBInstance`: an ACK RDS DBInstance, plus a Secret holding
 * the master password when one is given. This is the one built-in rule with runtime
 * attributes: the endpoint's address and port.
 */
module RdsDBInstance {
  import opened Wrappers
  import opened Json
  import opened Base

  const CfnType := "AWS::RDS::DBInstance"

  /** The key of the password in the generated Secret. */
  const PasswordSecretKey := "password"

  const Exports := [ExportMapping("endpoint.address", "Endpoint.Address"), ExportMapping("endpoint.port", "Endpoint.Port")]

  /**
   * The name check reads `dbClusterIdentifier` and the patch writes `/spec/dbInstanceIdentifier`,
   * although `spec.dbInstanceIdentifier` is filled from `dbInstanceIdentifier`.
   */
  const Names := NameMapping("/spec/dbInstanceIdentifier", "dbClusterIdentifier")

  /** `createPasswordSecret`: a Secret `${logicalId}Secret` whose string data holds the password. */
  function PasswordSecret(password: Json, logicalId: string, env: Env): (c: Child)
    ensures c.id == logicalId + "Secret" && c.obj.kind == "Secret" && c.obj.apiGroup == ""
    ensures c.obj.name == env.autoName(logicalId + "Secret") && c.obj.namespace == env.namespace
    ensures Get(c.obj.body, "stringData").Some? && Get(Get(c.obj.body, "stringData").value, PasswordSecretKey) == Some(password)
  {
    var data := [Entry(PasswordSecretKey, Some(password))];
    ObjGet(data, 0);
    ObjGet([Entry("stringData", Some(Obj(data)))], 0);
    Child(logicalId + "Secret", NewObject("", "Secret", logicalId + "Secret", None, Obj([Entry("stringData", Some(Obj(data)))]), env))
  }

  /** `spec.masterUserPassword`: a reference to the password's key in the Secret. */
  function PasswordRefEntries(secret: ApiObject): seq<Entry>
  {
    [ Entry("key", Some(JString(PasswordSecretKey))),
      Entry("name", Some(JString(secret.name))),
      Entry("namespace", if secret.namespace.Some? then Some(JString(secret.namespace.value)) else None) ]
  }

  function SpecEntries(props: Json, secret: Option<ApiObject>, env: Env): seq<Entry>
  {
    [ Entry("dbName", Get(props, "dbName")),
      Entry("dbClusterIdentifier", Get(props, "dbInstanceIdentifier")),
      Entry("dbInstanceClass", Get(props, "dbInstanceClass")),
      Entry("allocatedStorage", if Truthy(Get(props, "allocatedStorage")) then Some(env.parseInt(Get(props, "allocatedStorage").value)) else None),
      Entry("copyTagsToSnapshot", Get(props, "copyTagsToSnapshot")),
      Entry("dbSubnetGroupName", Get(props, "dbSubnetGroupName")),
      Entry("engine", Get(props, "engine")),
      Entry("masterUsername", Get(props, "masterUsername")),
      Entry("masterUserPassword", if secret.Some? then Some(Obj(PasswordRefEntries(secret.value))) else None),
      Entry("storageType", Get(props, "storageType")),
      Entry("dbSecurityGroups", Get(props, "dbSecurityGroups")),
      Entry("vpcSecurityGroupIDs", Get(props, "vpcSecurityGroups")),
      Entry("dbInstanceIdentifier", Get(props, "dbInstanceIdentifier")),
      Entry("characterSetName", Get(props, "characterSetName")) ]
  }

  /** `map`: the Secret (only when a master password is given), then the DBInstance. */
  function Map(logicalId: string, props: Json, env: Env): Outcome<Built>
  {
    if props.JNull? then Failure(ScriptError)
    else
      var password := Get(props, "masterUserPassword");
      var secret := if Truthy(password) then Some(PasswordSecret(password.value, logicalId, env)) else None;
      var spec := Obj(SpecEntries(props, if secret.Some? then Some(secret.value.obj) else None, env));
      var resource := AckResource("rds.services.k8s.aws", "DBInstance", logicalId, Get(props, "dbName"), spec, env);
      Success(Built(if secret.Some? then [secret.value] else [], resource))
  }

  /** The rule as registered: the endpoint's address and port are exported, in that order. */
  function Rule(): (m: Mapper)
    ensures m.cfnType == "AWS::RDS::DBInstance" && m.refMapping == ByName
    ensures m.exportMappings == [ExportMapping("endpoint.address", "Endpoint.Address"), ExportMapping("endpoint.port", "Endpoint.Port")]
    ensures m.nameMapping == NameMapping("/spec/dbInstanceIdentifier", "dbClusterIdentifier")
    ensures m.mapFn == Map
  {
    NewMapper(CfnType, Exports, Names, Map)
  }

  /**
   * A Secret is created exactly when `masterUserPassword` is truthy, and then
   * `spec.masterUserPassword` refers to its `password` key by the Secret's name and namespace;
   * otherwise nothing is created and the field is undefined.
   */
  lemma MapPasswordSecret(logicalId: string, props: Json, env: Env)
    ensures Map(logicalId, props, env).Success? <==> !props.JNull?
    ensures Map(logicalId, props, env).Success? ==>
      var b := Map(logicalId, props, env).value;
      var password := Get(props, "masterUserPassword");
      && b.resource.Spec().Some?
      && (Truthy(password) ==>
            && |b.extras| == 1
            && b.extras[0] == PasswordSecret(password.value, logicalId, env)
            && var ref := Get(b.resource.Spec().value, "masterUserPassword");
               && ref.Some?
               && Get(ref.value, "key") == Some(JString("password"))
               && Get(ref.value, "name") == Some(JString(env.autoName(logicalId + "Secret")))
               && Get(ref.value, "namespace") == (if env.namespace.Some? then Some(JString(env.namespace.value)) else None))
      && (!Truthy(password) ==>
            b.extras == [] && Get(b.resource.Spec().value, "masterUserPassword") == None)
  {
    if !props.JNull? {
      var password := Get(props, "masterUserPassword");
      var secret := if Truthy(password) then Some(PasswordSecret(password.value, logicalId, env).obj) else None;
      ObjGet(SpecEntries(props, secret, env), 8);
      if secret.Some? {
        var es := PasswordRefEntries(secret.value);
        ObjGet(es, 0);
        ObjGet(es, 1);
        ObjGet(es, 2);
      }
    }
  }

  /** The rendered spec's naming and sizing fields, read back from the object literal. */
  lemma SpecIdentity(props: Json, secret: Option<ApiObject>, env: Env)
    ensures var spec := Obj(SpecEntries(props, secret, env));
      && Get(spec, "dbName") == Get(props, "dbName")
      && Get(spec, "dbClusterIdentifier") == Get(props, "dbInstanceIdentifier")
      && Get(spec, "dbInstanceClass") == Get(props, "dbInstanceClass")
      && Get(spec, "allocatedStorage") ==
           (if Truthy(Get(props, "allocatedStorage")) then Some(env.parseInt(Get(props, "allocatedStorage").value)) else None)
      && Get(spec, "dbInstanceIdentifier") == Get(props, "dbInstanceIdentifier")
  {
    var es := SpecEntries(props, secret, env);
    ObjGet(es, 0);
    ObjGet(es, 1);
    ObjGet(es, 2);
    ObjGet(es, 3);
    ObjGet(es, 12);
  }

  /** The rendered spec's copied fields, read back from the object literal. */
  lemma SpecCopies(props: Json, secret: Option<ApiObject>, env: Env)
    ensures var spec := Obj(SpecEntries(props, secret, env));
      && Get(spec, "copyTagsToSnapshot") == Get(props, "copyTagsToSnapshot")
      && Get(spec, "dbSubnetGroupName") == Get(props, "dbSubnetGroupName")
      && Get(spec, "engine") == Get(props, "engine")
      && Get(spec, "masterUsername") == Get(props, "masterUsername")
  {
    var es := SpecEntries(props, secret, env);
    ObjGet(es, 4);
    ObjGet(es, 5);
    ObjGet(es, 6);
    ObjGet(es, 7);
  }

  /** The rendered spec's storage and network fields, read back from the object literal. */
  lemma SpecGroups(props: Json, secret: Option<ApiObject>, env: Env)
    ensures var spec := Obj(SpecEntries(props, secret, env));
      && Get(spec, "storageType") == Get(props, "storageType")
      && Get(spec, "dbSecurityGroups") == Get(props, "dbSecurityGroups")
      && Get(spec, "vpcSecurityGroupIDs") == Get(props, "vpcSecurityGroups")
      && Get(spec, "characterSetName") == Get(props, "characterSetName")
  {
    var es := SpecEntries(props, secret, env);
    ObjGet(es, 9);
    ObjGet(es, 10);
    ObjGet(es, 11);
    ObjGet(es, 13);
  }

  /**
   * The instance is named by `dbName` in its metadata and in `spec.dbName`;
   * `allocatedStorage` is parsed when truthy and undefined otherwise; `vpcSecurityGroupIDs`
   * comes from `vpcSecurityGroups`, both identifiers from `dbInstanceIdentifier`, and the
   * other fields are copied.
   */
  lemma MapProjects(logicalId: string, props: Json, env: Env)
    ensures Map(logicalId, props, env).Success? ==>
      var r := Map(logicalId, props, env).value.resource;
      && r.apiGroup == "rds.services.k8s.aws" && r.kind == "DBInstance"
      && r.name == ObjectName(Get(props, "dbName"), logicalId, env)
      && r.Spec().Some?
      && var spec := r.Spec().value;
         && Get(spec, "dbName") == Get(props, "dbName")
         && Get(spec, "allocatedStorage") ==
              (if Truthy(Get(props, "allocatedStorage")) then Some(env.parseInt(Get(props, "allocatedStorage").value)) else None)
         && Get(spec, "vpcSecurityGroupIDs") == Get(props, "vpcSecurityGroups")
         && Get(spec, "dbClusterIdentifier") == Get(props, "dbInstanceIdentifier")
         && Get(spec, "dbInstanceIdentifier") == Get(props, "dbInstanceIdentifier")
         && Get(spec, "dbInstanceClass") == Get(props, "dbInstanceClass")
         && Get(spec, "copyTagsToSnapshot") == Get(props, "copyTagsToSnapshot")
         && Get(spec, "dbSubnetGroupName") == Get(props, "dbSubnetGroupName")
         && Get(spec, "engine") == Get(props, "engine")
         && Get(spec, "masterUsername") == Get(props, "masterUsername")
         && Get(spec, "storageType") == Get(props, "storageType")
         && Get(spec, "dbSecurityGroups") == Get(props, "dbSecurityGroups")
         && Get(spec, "characterSetName") == Get(props, "characterSetName")
  {
    if !props.JNull? {
      var password := Get(props, "masterUserPassword");
      var secret := if Truthy(password) then Some(PasswordSecret(password.value, logicalId, env).obj) else None;
      SpecIdentity(props, secret, env);
      SpecCopies(props, secret, env);
      SpecGroups(props, secret, env);
    }
  }
}
