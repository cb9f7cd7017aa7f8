# cdk8s-aws-cdk adapter — a Dafny model

cdk8s-aws-cdk lets AWS CDK L1 constructs (`CfnResource`s) be declared inside a cdk8s chart.
Just before the chart is synthesized, its validation hook runs two phases. First, every
CloudFormation resource is translated into an AWS Controllers for Kubernetes (ACK) custom
resource. Second, every environment variable of a workload that refers to a CloudFormation
attribute (`Fn::GetAtt`) is rewritten to read the value from a ConfigMap. An ACK `FieldExport`
fills that ConfigMap from the ACK resource's status.

This project models that core:

- **Resource mappers** (`Base`, `RdsDBInstance`, `Ec2SecurityGroup`, `RdsDBSubnetGroup`,
  `IamPolicy`, `IamRole`, `LambdaFunction`, `S3Bucket`). Each mapper is a value with:
  - the CloudFormation type it handles;
  - its export mappings (status field → attribute);
  - its name mapping (spec path ↔ CloudFormation property);
  - its reference mapping;
  - its `map` function from resolved properties to the ACK object plus any extra objects
    (the password Secret of an RDS instance).
- **Intrinsic resolution** (`Intrinsics`). This models the `JSON.stringify` replacer:
  - `Fn::*` intrinsics are rejected;
  - `{"Ref": id}` is replaced by the referenced object's name;
  - everything else is kept.
- **The chart's children** (`ChartScope`). A `Tree` of API objects is kept in creation order,
  together with each object's JSON patches. The class `ChartScope.ChartScope` holds this
  mutable state.
- **Phase 1** (`Resources`, and `Adapter.Adapter.TransformResources`), in this order:
  1. check that a mapper is registered;
  2. resolve intrinsics (with JSON null kept as a plain value; see Findings);
  3. map;
  4. add the name patches;
  5. create the ConfigMap;
  6. create one FieldExport per export mapping.
- **Phase 2** (`Attributes`, and `Adapter.Adapter.TransformAttributes`). Workloads
  (Deployment, StatefulSet, DaemonSet, Job, Pod) get a `remove`/`add` pair of patches for
  each `Fn::GetAtt` env var whose FieldExport exists, and an error for a GetAtt whose
  FieldExport does not exist.
- **The chart's validation hook** (`Chart`). `Chart.Validated` is phase 1 followed by
  phase 2 over the objects that existed before phase 1.

The imperative source stays imperative here:
- `Adapter.Adapter` and `Chart.Chart` are classes whose methods loop and update the chart
  in place.
- Each method is proved equal to a pure specification function (`Resources.TransformAll`,
  `Attributes.RewriteAll`, …).
- The properties are proved about those functions as lemmas.

Environment-dependent behaviour is passed in as `Base.Env`:
- cdk8s's generated object names (`autoName`);
- the chart's namespace;
- JavaScript `parseInt`;
- CDK token resolution (`resolveToken`).

JavaScript values are `Json.Json`. Objects are member lists in enumeration order, and an
`undefined` field is an absent member. A `TypeError` thrown by property access on
`null`/`undefined` is `Error.ScriptError`.

## Model

| member | source | states |
|---|---|---|
| Base.RefMappingValues | src/mappers/base.ts:19-22 | the reference-mapping enum values are exactly `name` (ByName) and `arn` (ByArn) |
| Base.NewMapper | src/mappers/base.ts:24-36 | a mapper carries its type, export mappings, name mapping and map function, and its reference mapping defaults to name |
| Base.ObjectName | src/mappers/rds-db-instance.ts:36 | an ACK object is named by a string `metadata.name`; when `metadata.name` is nullish, it gets the generated name for its id |
| Base.AckResource | src/mappers/base.ts:36 | a mapped ACK object has the given group and kind, the chart's namespace, the given spec, and no patches |
| RdsDBInstance.Rule | src/mappers/rds-db-instance.ts:11-27 | the RDS instance mapper handles `AWS::RDS::DBInstance`, exports `endpoint.address`/`endpoint.port` as `Endpoint.Address`/`Endpoint.Port`, and maps `dbClusterIdentifier` to `/spec/dbInstanceIdentifier` |
| RdsDBInstance.PasswordSecret | src/mappers/rds-db-instance.ts:60-64 | the password Secret has id `${logicalId}Secret`, a generated name, the chart's namespace, and `stringData.password` equal to the password |
| RdsDBInstance.MapPasswordSecret | src/mappers/rds-db-instance.ts:33-50 | mapping fails exactly on null properties. A truthy `masterUserPassword` yields exactly one extra object, the Secret, and the spec references it by key `password`, its name and its namespace. Otherwise there is no Secret and no reference |
| RdsDBInstance.SpecIdentity | src/mappers/rds-db-instance.ts:38-41 | `dbName` and `dbInstanceClass` are copied. Both `dbClusterIdentifier` and `dbInstanceIdentifier` take the CloudFormation `dbInstanceIdentifier`. `allocatedStorage` is `parseInt` of a truthy value and absent otherwise |
| RdsDBInstance.SpecCopies | src/mappers/rds-db-instance.ts:42-45 | `copyTagsToSnapshot`, `dbSubnetGroupName`, `engine` and `masterUsername` are copied unchanged |
| RdsDBInstance.SpecGroups | src/mappers/rds-db-instance.ts:51-55 | `storageType`, `dbSecurityGroups` and `characterSetName` are copied, and `vpcSecurityGroupIDs` takes `vpcSecurityGroups` |
| RdsDBInstance.MapProjects | src/mappers/rds-db-instance.ts:29-57 | a mapped instance is an `rds.services.k8s.aws` DBInstance named after `dbName`, whose spec holds each field above |
| Ec2SecurityGroup.Rule | src/mappers/ec2-security-group.ts:8-15 | handles `AWS::EC2::SecurityGroup`, with no exports and `groupName` ↔ `/spec/name` |
| Ec2SecurityGroup.MapProjects | src/mappers/ec2-security-group.ts:17-29 | fails exactly on null properties; otherwise yields one SecurityGroup named after `groupName`, with `name`, `description` and `vpcId` copied |
| RdsDBSubnetGroup.Rule | src/mappers/rds-db-subnet-group.ts:9-16 | handles `AWS::RDS::DBSubnetGroup`, with no exports and `dbSubnetGroupName` ↔ `/spec/name` |
| RdsDBSubnetGroup.MapProjects | src/mappers/rds-db-subnet-group.ts:18-31 | fails exactly on null properties; otherwise yields one DBSubnetGroup with `name`, `description`, `subnetIDs` (from `subnetIds`) and `tags` |
| IamPolicy.Rule | src/mappers/iam-policy.ts:8-15 | handles `AWS::IAM::Policy`, with no exports and `policyName` ↔ `/spec/name` |
| IamPolicy.MapProjects | src/mappers/iam-policy.ts:17-28 | fails exactly on null properties; otherwise yields one Policy with `name` and `policyDocument` copied |
| IamRole.Rule | src/mappers/iam-role.ts:8-15 | handles `AWS::IAM::Role`, with no exports and `roleName` ↔ `/spec/name` |
| IamRole.PolicyNamesInOrder | src/mappers/iam-role.ts:27 | `policies.map(p => p.policyName)` fails exactly when some entry is null; otherwise it has one name per policy, in order |
| IamRole.MapProjects | src/mappers/iam-role.ts:17-30 | yields one Role with `name` and `assumeRolePolicyDocument` copied. `policies` is absent when the CloudFormation list is falsy, and is otherwise the policy names in order |
| LambdaFunction.Rule | src/mappers/lambda-function.ts:8-15 | handles `AWS::Lambda::Function`, with no exports and `functionName` ↔ `/spec/name` |
| LambdaFunction.MapProjects | src/mappers/lambda-function.ts:17-33 | fails exactly when properties are null or `code` is nullish; otherwise copies `name`, `code.imageUri`, `role`, `handler` and `runtime` |
| S3Bucket.Rule | src/mappers/s3-bucket.ts:8-15 | handles `AWS::S3::Bucket`, with no exports and `bucketName` ↔ `/spec/name` |
| S3Bucket.BuildLambdaConfigurations | src/mappers/s3-bucket.ts:21-38 | the push loop over the notification's lambda configurations returns exactly `LambdaConfigurations`, including its first error. `S3Bucket.Map`, a function, uses `LambdaConfigurations`; this method is the loop as written, proved equal to it |
| S3Bucket.FirstFailure | src/mappers/s3-bucket.ts:25-38 | the first configuration that throws aborts the loop with its own error |
| S3Bucket.OnePerConfiguration | src/mappers/s3-bucket.ts:25-38 | building succeeds iff every configuration does; then there is one output per configuration, in order |
| S3Bucket.FilterRulesInOrder | src/mappers/s3-bucket.ts:33 | filter rules fail exactly on a null rule; otherwise each rule's `name` and `value` are copied, in order |
| S3Bucket.ConfigurationFields | src/mappers/s3-bucket.ts:29-37 | each output has `events: [event]`, `lambdaFunctionArn` from `function`, and `filter.key.filterRules` from `filter.s3Key.rules` |
| S3Bucket.MapProjects | src/mappers/s3-bucket.ts:17-50 | succeeds iff properties are non-null and every configuration builds. Without notifications it always succeeds. `name` is copied, and `notification.lambdaFunctionConfigurations` is absent when there are no configurations, else one entry per configuration |
| Intrinsics.Keys | src/adapter.ts:189 | the key list of an object, in order |
| Intrinsics.ResolveRef | src/adapter.ts:206-218 | a `Ref` resolves iff its argument is a string naming a child and the mapper maps by name; the result is that child's name. An unknown id raises the `findChild` error, and any other mapping raises "Unsupported ref mapping" |
| Intrinsics.Resolve | src/adapter.ts:180-223 | a successful result contains no intrinsic (and, in the as-written variant, no null). A single-key `Fn::*` object fails with the property key and the logical id |
| Intrinsics.ResolveItems | src/adapter.ts:182-219 | array elements are resolved in place: same length, every element intrinsic-free |
| Intrinsics.ResolveMembers | src/adapter.ts:182-219 | object members are resolved in place: same keys in the same order, every value intrinsic-free |
| Intrinsics.ContainsFnFails | src/adapter.ts:197-204 | a `Fn::*` intrinsic at any depth makes resolution fail |
| Intrinsics.ItemsContainingFnFail | src/adapter.ts:197-204 | an array with an element containing `Fn::*` fails to resolve |
| Intrinsics.MembersContainingFnFail | src/adapter.ts:197-204 | an object with a member containing `Fn::*` fails to resolve |
| Intrinsics.InertUnchanged | src/adapter.ts:184-192 | a value without intrinsics is returned unchanged |
| Intrinsics.InertItemsUnchanged | src/adapter.ts:184-192 | an array without intrinsics is returned unchanged |
| Intrinsics.InertMembersUnchanged | src/adapter.ts:184-192 | an object without intrinsics is returned unchanged |
| Intrinsics.Idempotent | src/adapter.ts:180-223 | resolving an already resolved value changes nothing, under any reference context |
| Intrinsics.RefResolved | src/adapter.ts:206-215 | a `{"Ref": id}` value resolves exactly as `ResolveRef(id)` |
| Intrinsics.RefMemberReplaced | src/adapter.ts:206-215 | a `Ref` member among inert members is replaced by the referenced name, and the other members are kept |
| Intrinsics.NullPropertyThrows | src/adapter.ts:184-191 | as written, a property whose value is JSON null throws (see Findings) |
| Intrinsics.NullSafeAgrees | src/adapter.ts:184-191 | on null-free input, the null-tolerant resolution agrees with the as-written one |
| Intrinsics.NullSafeItemsAgree | src/adapter.ts:184-191 | the same agreement for null-free arrays |
| Intrinsics.NullSafeMembersAgree | src/adapter.ts:184-191 | the same agreement for null-free objects |
| Intrinsics.NullPropertyKept | src/adapter.ts:184-191 | with null handled, `{"tags": null}` resolves to itself |
| ChartScope.Tree.Add | src/adapter.ts:69 | adding a child succeeds iff its id is new (otherwise a duplicate-id error). The child is appended to the order, existing children are kept, and validity is preserved |
| ChartScope.Tree.AddAll | src/mappers/rds-db-instance.ts:33 | adding several children extends the tree and preserves validity; their ids follow the existing order in the order given, and each id holds its own object |
| ChartScope.Tree.Names | src/adapter.ts:212-215 | `findChild(id).name`: the name of every child, keyed by its id |
| ChartScope.Tree.AppendPatches | src/adapter.ts:62-63 | `addJsonPatch` appends patches to one child only; order, keys and the other children are unchanged |
| ChartScope.AddAllFailsAtPrefix | src/adapter.ts:69 | once adding a prefix of children fails, adding all of them fails with the same error |
| ChartScope.AppendNothing | src/adapter.ts:163-175 | appending no patches is the identity |
| ChartScope.AppendPatchesTwice | src/adapter.ts:166-167 | two successive `addJsonPatch` batches equal one batch of their concatenation |
| ChartScope.ChartScope.constructor | src/chart.ts:12-14 | the chart starts with the given environment, CloudFormation resources and children |
| ChartScope.ChartScope.AddChild | src/adapter.ts:69 | creating a construct updates the tree exactly as `Tree.Add` |
| ChartScope.ChartScope.AddChildren | src/mappers/rds-db-instance.ts:33 | the loop adding several children updates the tree exactly as `Tree.AddAll` |
| ChartScope.ChartScope.AddJsonPatch | src/adapter.ts:62 | one `addJsonPatch` appends one patch to one child |
| Resources.FieldExportId | src/adapter.ts:233-235 | the FieldExport id is the logical id followed by the attribute |
| Resources.FieldExportPath | src/adapter.ts:237-239 | the FieldExport path is `.status.` followed by the field |
| Resources.ConfigMapChild | src/adapter.ts:69 | the ConfigMap has id `${logicalId}ConfigMap`, kind ConfigMap, a generated name and the chart's namespace |
| Resources.FieldExportChild | src/adapter.ts:72-83 | a FieldExport has the export id, group `services.k8s.aws`, kind FieldExport, a generated name and the chart's namespace |
| Resources.FieldExportReadsBack | src/adapter.ts:73-82 | a FieldExport's spec reads back: `from.path`, `from.resource` (group, kind, name), and `to` (kind `configmap`, the ConfigMap's name) |
| Resources.AddExports | src/adapter.ts:71-84 | one FieldExport per export mapping, appended in mapping order and stored under its id |
| Resources.Transform1 | src/adapter.ts:45-85 | an unmapped type fails with the "Mapper is not registered" error. A success implies that mapping succeeded, extends the chart and preserves validity |
| Resources.TransformAddsExtras | src/mappers/rds-db-instance.ts:33-35 | a mapper's extra objects (the RDS password Secret) are created first, in order, each holding its own object, and the resource follows them |
| Resources.ResolvedAsWritten | src/adapter.ts:180-223 | on properties without JSON null, phase 1's resolution is exactly the code as written |
| Resources.NullPropertiesDiverge | src/adapter.ts:184-191 | on `{"tags": null}`, phase 1's resolution keeps the properties, while the code as written throws |
| Resources.TransformAll | src/adapter.ts:43-86 | transforming all resources extends the chart and preserves validity |
| Resources.TransformPatchesName | src/adapter.ts:58-64 | the mapped resource is added under its logical id. It gets exactly the two name patches (spec path and `/metadata`) when the name property is falsy, and none otherwise |
| Resources.TransformRegistersExports | src/adapter.ts:66-84 | each mapped resource gets its ConfigMap and one FieldExport per export mapping; the chart grows by extras + 2 + exports |
| Resources.UnmappedStopsAll | src/adapter.ts:49-53 | the first unmapped resource stops the loop with its own error |
| Resources.TransformAllFailsAtPrefix | src/adapter.ts:45-85 | once a prefix fails, the whole loop fails with that error |
| Resources.TransformAllPrefix | src/adapter.ts:45-85 | a successful run succeeds on every prefix, and each prefix's chart is extended by the final one |
| Attributes.EnvVarPatches | src/adapter.ts:128-175 | an env var yields no patches or exactly `remove` and then `add` at its own path. Patches occur only for a token resolving to `Fn::GetAtt`, and never for a falsy value |
| Attributes.VarsPatches | src/adapter.ts:126-176 | at most two patches per env var |
| Attributes.ObjectPatches | src/adapter.ts:103-115 | kinds other than Deployment, StatefulSet, DaemonSet, Job and Pod get no patches |
| Attributes.RewriteAll | src/adapter.ts:97-117 | phase 2 keeps the order and the ids and changes objects only by appending patches. Objects not visited, or not pod-bearing, are unchanged |
| Attributes.RewriteAllAppends | src/adapter.ts:99-116 | phase 2 succeeds iff every visited object's patches can be computed; then each visited object gains exactly `ObjectPatches` of itself, computed on the chart phase 2 started from |
| Attributes.EnvVarPatchesIgnorePatches | src/adapter.ts:158-171 | an env var's rewrite reads the FieldExport's body, name and namespace, never any patches |
| Attributes.VarsPatchesIgnorePatches | src/adapter.ts:126-176 | a container's patches do not depend on the patches already in the chart |
| Attributes.ContainersPatchesIgnorePatches | src/adapter.ts:121-177 | an object's container patches do not depend on the patches already in the chart |
| Attributes.ObjectPatchesIgnorePatches | src/adapter.ts:101-115 | what phase 2 computes for an object does not depend on the patches already in the chart |
| Attributes.VarsPatchesInclude | src/adapter.ts:126-176 | a container's patches include those of each of its env vars, at that var's own path |
| Attributes.ContainersPatchesInclude | src/adapter.ts:121-177 | an object's patches include those of each of its containers |
| Attributes.GetAttRoundTrip | src/adapter.ts:153-175 | a GetAtt on a registered FieldExport becomes `remove` plus `add {name, valueFrom.configMapKeyRef {key: namespace.name, name: ConfigMap}}`, the namespace defaulting to `default` |
| Attributes.PlainValueKept | src/adapter.ts:135-138 | an env var whose value is not a token is left alone |
| Attributes.UnregisteredGetAttThrows | src/adapter.ts:158-161 | a GetAtt without a FieldExport fails with "Field export not registered" |
| Attributes.VarsPatchesArePairs | src/adapter.ts:166-167 | the patches of a container are `remove`/`add` pairs, each pair at one env var's path |
| Adapter.RegisterStep | src/adapter.ts:36-38 | registering one more mapper overwrites the entry for its type |
| Adapter.RegisterKeys | src/adapter.ts:36-38 | the registry's keys are the old keys plus every registered type |
| Adapter.RegisterLast | src/adapter.ts:36-38 | the last mapper registered for a type wins |
| Adapter.RegisterOthers | src/adapter.ts:36-38 | types not registered again keep their mapper |
| Adapter.BuiltinRegistry | src/adapter.ts:24-30 | the built-in registry holds exactly the seven types, each with its own mapper |
| Adapter.DBInstanceNamePatch | src/mappers/rds-db-instance.ts:24-27 | an RDS instance gets the generated name at `/spec/dbInstanceIdentifier` exactly when `dbClusterIdentifier` is falsy |
| Adapter.AddExportsFailsAtPrefix | src/adapter.ts:71-84 | a failing prefix of export mappings fails the whole loop |
| Adapter.RewriteAllFailsAtPrefix | src/adapter.ts:99-116 | a failing prefix of objects fails the whole of phase 2 |
| Adapter.ContainersFailAtPrefix | src/adapter.ts:121-177 | a failing prefix of containers fails the whole object |
| Adapter.VarsFailAtPrefix | src/adapter.ts:126-176 | a failing prefix of env vars fails the whole container |
| Adapter.Adapter.constructor | src/adapter.ts:20-31 | the adapter starts with the seven built-in mappers registered in order |
| Adapter.Adapter.RegisterMapper | src/adapter.ts:36-38 | registering sets the entry for the mapper's type and changes nothing else |
| Adapter.Adapter.TryFindMapper | src/adapter.ts:225-227 | a mapper is found iff its type is registered, and it is the registered one |
| Adapter.Adapter.TryFindFieldExport | src/adapter.ts:229-231 | a FieldExport is found iff a child with id `logicalId + attribute` exists |
| Adapter.Adapter.TransformResources | src/adapter.ts:43-86 | the loop's outcome and resulting chart are those of `Resources.TransformAll` |
| Adapter.Adapter.TransformResource | src/adapter.ts:46-84 | one iteration's outcome and chart are those of `Resources.Transform1` |
| Adapter.Adapter.AddNamePatches | src/adapter.ts:61-64 | appends exactly `Resources.NamePatches` to the resource |
| Adapter.Adapter.AddFieldExports | src/adapter.ts:71-84 | the export loop's outcome and chart are those of `Resources.AddExports` |
| Adapter.Adapter.TransformAttributes | src/adapter.ts:97-117 | the loop's outcome and chart are those of `Attributes.RewriteAll` |
| Adapter.Adapter.PatchContainerEnvironment | src/adapter.ts:119-178 | the container loop's outcome is that of `Attributes.ContainersPatches`, and on success those patches are appended to the object |
| Adapter.Adapter.PatchEnvVars | src/adapter.ts:126-176 | the env-var loop appends exactly `Attributes.VarsPatches`, or fails with its error |
| Chart.Validated | src/chart.ts:22-35 | a phase-1 failure is the hook's failure; phase 2 runs only after phase 1 succeeds |
| Chart.CreatedObjectsNotRewritten | src/chart.ts:24-31 | objects created by phase 1 are not rewritten by phase 2, because the object list is taken before phase 1 |
| Chart.ExistingObjectsOnlyGainPatches | src/chart.ts:24-31 | pre-existing objects only gain patches, and non-workload objects are untouched |
| Chart.ExistingObjectsGainTheirPatches | src/chart.ts:24-31 | each object in the chart before validation gains exactly the patches phase 2 computes for it on phase 1's chart |
| Chart.WorkloadEnvVarRewritten | src/chart.ts:22-35 | a workload's env var holding `Fn::GetAtt` of an exported attribute of a transformed resource leaves validation with the `remove` of the var and the `add` of its ConfigMap reference among the workload's patches, at the var's path |
| Chart.ExportedAttributeRewritten | src/chart.ts:28-31 | after phase 1, an env var holding `Fn::GetAtt` of any registered export of any transformed resource is rewritten to read the FieldExport's ConfigMap key |
| Chart.Chart.constructor | src/chart.ts:12-14 | a chart creates its adapter over itself, with the built-in mappers |
| Chart.Chart.Validate | src/chart.ts:22-35 | validation returns `[]` on success; its outcome and the resulting chart are those of `Chart.Validated` |

## Left out

- Resources.Transform1: phase 1 resolves intrinsics with the corrected, null-tolerant
  resolver. It therefore accepts properties containing JSON null, which the code as written
  rejects with a TypeError (see Findings). On null-free properties the two agree
  (`Resources.ResolvedAsWritten`).
- Resources.TransformAll: inherits that difference from `Resources.Transform1`.
- Adapter.Adapter.TransformResources: its outcome and chart are those of
  `Resources.TransformAll`, so it succeeds on null-bearing properties where the code as
  written throws.
- Adapter.Adapter.TransformResource: likewise follows `Resources.Transform1`.
- Chart.Validated: runs that phase 1, with the same difference.
- Chart.Chart.Validate: follows `Chart.Validated`, with the same difference.
- Stack token resolution (`this.resolve`), `_toCloudFormation()` and `getLogicalId` are inputs:
  - `CfnResource.properties` is the already resolved `Properties` value, and a template
    without properties is a script error;
  - `Env.resolveToken` is the result of resolving an env-var token.
- cdk8s name generation is the parameter `Env.autoName`, and JavaScript `parseInt` is the
  parameter `Env.parseInt`. Their algorithms are not part of this model.
- JSON Patch application and the synthesized manifest are not modelled. An API object's
  `body` is its JSON without the adapter's patches, and its patches are a separate list.
- ConfigMap and Secret bodies are modelled only in the parts the adapter relies on: kind,
  name, namespace and the password's `stringData`.
- Every API object is treated as a direct child of the chart. Nesting under other
  constructs and `findAll()` tree order are left out; the order here is creation order.
- CloudFormation constructs are kept apart from API objects. Id collisions between them,
  and `sanitizeId` in `findChild`, are not modelled.
- A `containers` or `env` value that is not an array counts as having no entries
  (JavaScript would iterate a string's characters or any object with a `length`). A GetAtt
  argument whose first two elements are not both strings names no FieldExport; a string
  argument contributes its first two characters, as JavaScript indexing does.
- A non-string `metadata.name` is treated as absent.
- JSON objects with duplicate keys are not JavaScript objects and are not considered.
- The chart's state after a thrown error is left unspecified, since synthesis aborts.
- `_inheritStack` (the monkey patch that makes the chart usable as a CDK stack), the
  generated `imports/` bindings (beyond the group, kind and `configmap` target constants
  used here), the examples and the tests are not part of this model.
- `Attributes.VarsPatches`: its contract bounds the count; the exact shape of each pair is
  proved separately in `Attributes.VarsPatchesArePairs`.

## Findings

| source | as written | input that shows it | evidently intended | confidence | as-written member | corrected member |
|---|---|---|---|---|---|---|
| src/adapter.ts:184-191 | the replacer treats every `typeof value === 'object'` value as a candidate intrinsic; `typeof null` is `'object'`, so `Object.keys(null)` throws a TypeError | resource properties `{"tags": null}` | null values are plain values and are kept unchanged | not executed | Intrinsics.NullPropertyThrows | Intrinsics.NullPropertyKept |
