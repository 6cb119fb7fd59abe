# Lambda@Edge function construct: a Dafny model

This project models the decision and naming logic of the CloudFront
`EdgeFunction` construct in `aws-cdk-lib` (Lambda@Edge). Lambda@Edge functions
can only be created in `us-east-1`. The construct handles that as follows:

- **Placement.** If its stack's region is a resolved literal `us-east-1`, it
  creates the function in place under the id `Fn`. In every other case it
  takes the cross-region path.
- **Cross-region path.** It refuses a region that is an unresolved token. It
  gets or creates a support stack in `us-east-1` in the enclosing stage, and
  makes the calling stack depend on that support stack. It creates the
  function there. It stores the ARN of the function's current version in an
  SSM parameter named `/cdk/EdgeFunctionArn/<region>/<sanitised path>`. A
  custom resource reads that parameter back. The reader's policy grants
  `ssm:GetParameter` on `cdk/EdgeFunctionArn/*` in `us-east-1`.
- **Trust statement.** Either way, it adds a statement to the function
  role's trust policy that lets `edgelambda.amazonaws.com` assume the role.
  This happens only when the role is defined in the app and has a trust
  policy.
- **Fixed members.** `connections` and `latestVersion` always throw. Every
  metric is requested with its region forced to `us-east-1`.

Files:

- `wrappers.dfy`: `Option` and `Result`. A `Failure` stands for a thrown
  `ValidationError`.
- `js_strings.dfy`: strings as sequences of UTF-16 code units. The source's
  regular expression has no `u` flag, so it works on code units; a character
  outside the Basic Multilingual Plane counts as two units.
- `framework.dfy`: the framework state the construct touches:
  - `Stage`: its child stacks, by id.
  - `Stack`: its environment and its dependency set.
  - `Role` and `PolicyDocument`: the trust policy's statement list.
  - A region or account is an `EnvValue` with a `resolved` flag. The flag
    stands for `Token.isUnresolved`.
- `edge_naming.dfy`: the pure naming logic:
  - path sanitisation and the SSM parameter name;
  - the IAM wildcard match of the reader's grant;
  - the support-stack id.
- `edge_function.dfy`: the placement decision and the trust statement. It
  also holds the `EdgeFunction` class, with:
  - `New`, which models the constructor;
  - the two creation paths;
  - `EdgeStack`;
  - the throwing getters and the metric override.

Notes on how the code was read:

- The construct's constructor can throw. It is therefore modelled as a static
  factory `EdgeFunction.New` returning a `Result`, and the Dafny constructor
  `Init` only assigns the read-only fields (lines 77-88).
- The doc comment on `stackId` (line 28) gives the default as
  `edge-lambda-stack-${region}`. The code (line 268) appends the calling
  stack's construct address instead. The model follows the code.
- `stackId ?? ...` replaces only an absent `stackId`. An empty `stackId` is
  kept as the id.
- The `role` field (line 59) is declared but never assigned, so the model's
  `role` is always `None`.
- When a child with the support-stack id already exists, the source reuses it
  without checking its region (lines 269-270). `EdgeStack` states this: only
  a newly created support stack is promised to be in `us-east-1`.
- Sanitisation does not make names unique. Paths that differ only in refused
  units share a parameter name (`ParameterNamesCollideIff`,
  `SpaceAndUnderscoreCollide`).

## Model

| member | source | states |
|---|---|---|
| `EdgeFunctions.PlacementFor` | packages/aws-cdk-lib/aws-cloudfront/lib/experimental/edge-function.ts:72-75 | The branch taken by the constructor: in-region for a resolved `us-east-1`, cross-region otherwise; its meaning is stated by `PlacementInRegionIff`. |
| `EdgeFunctions.EdgeError.Message` | packages/aws-cdk-lib/aws-cloudfront/lib/experimental/edge-function.ts:114-119 | The texts of the four `ValidationError`s: the two getters' (lines 115 and 118), the explicit-region one (line 199) and the stage one (line 265). |
| `EdgeFunctions.PlacementInRegionIff` | packages/aws-cdk-lib/aws-cloudfront/lib/experimental/edge-function.ts:72-75 | The in-region path is taken if and only if the region is resolved and equals `us-east-1`. Every unresolved region goes cross-region. |
| `EdgeFunctions.CrossRegionParameterName` | packages/aws-cdk-lib/aws-cloudfront/lib/experimental/edge-function.ts:196-203 | The cross-region path fails exactly when the region is unresolved, and then with the explicit-region error. |
| `EdgeFunctions.UnresolvedRegionRejected` | packages/aws-cdk-lib/aws-cloudfront/lib/experimental/edge-function.ts:198-200 | An unresolved region is never placed in-region, and the cross-region path rejects it. |
| `EdgeFunctions.CrossRegionParameterNameReadable` | packages/aws-cdk-lib/aws-cloudfront/lib/experimental/edge-function.ts:196-230 | A resolved region always yields a name that starts with `/cdk/EdgeFunctionArn/` and that the reader's grant covers. |
| `EdgeNaming.Sanitize` | packages/aws-cdk-lib/aws-cloudfront/lib/experimental/edge-function.ts:201-202 | The output has the input's length in code units. Each unit is kept when it is an ASCII letter, a digit, `_`, `.`, `-` or `/`, and is `_` otherwise. Every output unit is valid in an SSM name. |
| `EdgeNaming.SanitizeIdempotent` | packages/aws-cdk-lib/aws-cloudfront/lib/experimental/edge-function.ts:202 | Sanitising a sanitised path returns it unchanged. |
| `EdgeNaming.SanitizeFixesExactlyValidNames` | packages/aws-cdk-lib/aws-cloudfront/lib/experimental/edge-function.ts:201-202 | A path is left unchanged if and only if all its units are valid SSM name units. |
| `EdgeNaming.SanitizeConcat` | packages/aws-cdk-lib/aws-cloudfront/lib/experimental/edge-function.ts:202 | Sanitisation distributes over concatenation, because the global replace works unit by unit. |
| `EdgeNaming.SanitizeSupplementaryCharacter` | packages/aws-cdk-lib/aws-cloudfront/lib/experimental/edge-function.ts:202 | A character outside the BMP is a surrogate pair, so it becomes two underscores. |
| `EdgeNaming.ParameterNamePrefixIsPlain` | packages/aws-cdk-lib/aws-cloudfront/lib/experimental/edge-function.ts:197 | The prefix `cdk/EdgeFunctionArn` is a valid SSM name and holds no IAM wildcard. |
| `EdgeNaming.ParameterName` | packages/aws-cdk-lib/aws-cloudfront/lib/experimental/edge-function.ts:203 | The name is one unit longer than `/cdk/EdgeFunctionArn/`, the region and the path together, and starts with `/cdk/EdgeFunctionArn/`; the full split is `ParameterNameLayout`. |
| `EdgeNaming.ParameterNameLayout` | packages/aws-cdk-lib/aws-cloudfront/lib/experimental/edge-function.ts:197-203 | The parameter name is `/cdk/EdgeFunctionArn/`, then the region, then `/`, then the sanitised path. The lemma gives its exact length and each part's position. |
| `EdgeNaming.ParameterNameIsValid` | packages/aws-cdk-lib/aws-cloudfront/lib/experimental/edge-function.ts:201-203 | With a region made of valid units, the whole parameter name holds only letters, digits, `.`, `_`, `-` and `/`. |
| `EdgeNaming.ParameterNamesCollideIff` | packages/aws-cdk-lib/aws-cloudfront/lib/experimental/edge-function.ts:202-203 | In one region, two paths give the same parameter name if and only if their sanitised forms coincide. |
| `EdgeNaming.SpaceAndUnderscoreCollide` | packages/aws-cdk-lib/aws-cloudfront/lib/experimental/edge-function.ts:202-203 | The distinct paths `App/Edge Fn` and `App/Edge_Fn` get the same parameter name. |
| `EdgeNaming.ReaderGrantMatchesIff` | packages/aws-cdk-lib/aws-cloudfront/lib/experimental/edge-function.ts:222-230 | The grant `cdk/EdgeFunctionArn/*` matches a resource name if and only if the name starts with `cdk/EdgeFunctionArn/`. |
| `EdgeNaming.ReaderGrantCoversParameterName` | packages/aws-cdk-lib/aws-cloudfront/lib/experimental/edge-function.ts:197-230 | Every parameter name the construct derives, read as the resource name of its ARN, falls under the grant. |
| `EdgeFunctions.ArnReaderFor` | packages/aws-cdk-lib/aws-cloudfront/lib/experimental/edge-function.ts:232-259 | The reader reads the given parameter, and reads it in `us-east-1`. |
| `EdgeFunctions.ReaderCanReadParameter` | packages/aws-cdk-lib/aws-cloudfront/lib/experimental/edge-function.ts:221-244 | The reader built for a derived parameter name has an Allow grant on `ssm` in its own region, `us-east-1`, and that grant matches the parameter. |
| `EdgeNaming.EdgeStackId` | packages/aws-cdk-lib/aws-cloudfront/lib/experimental/edge-function.ts:268 | The id is the given `stackId`, even an empty one. Otherwise it is `edge-lambda-stack-` followed by the calling stack's address. |
| `EdgeNaming.DefaultEdgeStackIdsDistinguishStacks` | packages/aws-cdk-lib/aws-cloudfront/lib/experimental/edge-function.ts:268 | Default ids are equal if and only if the stack addresses are equal. |
| `EdgeFunctions.EdgeFunction.EdgeStack` | packages/aws-cdk-lib/aws-cloudfront/lib/experimental/edge-function.ts:262-280 | Fails with no stage, changing nothing. Otherwise it reuses the child with the derived id, leaving the children as they were, or adds exactly one fresh stack under that id, in `us-east-1` with the caller's account. Either way the caller's dependencies gain exactly the returned stack. |
| `EdgeFunctions.AddEdgeLambdaToRoleTrustStatement` | packages/aws-cdk-lib/aws-cloudfront/lib/experimental/edge-function.ts:289-297 | A defined role with a trust policy gets exactly one statement appended: Allow, principal `edgelambda.amazonaws.com`, action `sts:AssumeRole`. Any other role's policy is unchanged. |
| `EdgeFunctions.EdgeFunction.CreateInRegionFunction` | packages/aws-cdk-lib/aws-cloudfront/lib/experimental/edge-function.ts:187-193 | The function `Fn` is created under the construct. The ARN is its current version's. The trust statement is added. No parameter is created. |
| `EdgeFunctions.EdgeFunction.CreateCrossRegionFunction` | packages/aws-cdk-lib/aws-cloudfront/lib/experimental/edge-function.ts:195-219 | An unresolved region, or a missing stage, fails with nothing changed. Otherwise the function is created in the support stack and the trust statement is added. A parameter with the derived name stores its ARN, and the ARN returned is the reader's `FunctionArn` attribute for that same name. |
| `EdgeFunctions.EdgeFunction.Init` | packages/aws-cdk-lib/aws-cloudfront/lib/experimental/edge-function.ts:77-88 | `edgeArn` and `functionArn` are both the chosen path's ARN, and the wrapped function is the created one. `grantPrincipal` is the function's role, and the construct is not bound to a VPC. |
| `EdgeFunctions.EdgeFunction.New` | packages/aws-cdk-lib/aws-cloudfront/lib/experimental/edge-function.ts:66-89 | A resolved `us-east-1` region is built in place with no change to stacks or stage. An unresolved region fails with nothing changed. A resolved region elsewhere fails without a stage, and otherwise follows the cross-region path. The trust statement is added exactly on success. |
| `EdgeFunctions.EdgeFunction.Connections` | packages/aws-cdk-lib/aws-cloudfront/lib/experimental/edge-function.ts:114-116 | Always fails with the connections error. |
| `EdgeFunctions.EdgeFunction.LatestVersion` | packages/aws-cdk-lib/aws-cloudfront/lib/experimental/edge-function.ts:117-119 | Always fails with the `$LATEST` error. |
| `EdgeFunctions.EdgeFunction.Metric` | packages/aws-cdk-lib/aws-cloudfront/lib/experimental/edge-function.ts:153-172 | The request goes to the wrapped function with every caller option kept, except `region`. `region` is always `us-east-1`, whatever the caller gave, and the keys are the caller's plus `region`. |
| `EdgeFunctions.SupportStackSharedWithinStack` | packages/aws-cdk-lib/aws-cloudfront/lib/experimental/edge-function.ts:262-279 | Two edge functions in one stack outside `us-east-1`, neither giving a `stackId`, share one support stack in `us-east-1` with the stack's account. Distinct valid paths get distinct parameter names. |

## Left out

- Construction of `lambda.Function`, `ssm.StringParameter`, `CustomResource` and the reader's provider (`getOrCreate`). Each is recorded as a value saying where it was created and with what name, and is assumed to succeed, because their implementations are framework code that is not part of this model.
- EdgeFunctions.EdgeFunction.New: assumes the framework constructors it reaches succeed. Two edge functions with the same construct id in different scopes of one stack, without a `stackId`, land in one shared support stack under that id; the framework refuses the second, but the model returns success for both. An empty `stackId` likewise names a stack the framework refuses to create, and the model adds it.
- EdgeFunctions.EdgeFunction.CreateCrossRegionFunction: assumes `new lambda.Function(functionStack, id, ...)` succeeds, so it does not report a duplicate function id in a shared support stack.
- EdgeFunctions.EdgeFunction.EdgeStack: assumes `new Stack(stage, edgeStackId, ...)` succeeds, so an id the framework refuses (an empty `stackId`) is added as a child.
- `Stack.formatArn`: the reader's policy resource is kept as its ARN components. The formatted string, with partition and account, is framework code.
- The `RefreshToken` property of the reader (lines 250-255): deferred token resolution in the synthesis engine.
- `lambda.extractQualifierFromArn` (line 84), and so the `version` field. The fields `functionName`, `permissionsNode`, `architecture` and `resourceArnsForGrantInvoke` are also left out, and so is making the wrapped function the construct's default child (line 88). All of these are read from framework objects that are not part of this model.
- The stack's construct address: a hash of its path computed by the framework, kept as an unconstrained field.
- The construct path (`node.path`) and the function's role: the model takes both as inputs to `New`. The role may be the caller's or one the framework generates.
- `addDependency` internals: the model inserts into a set and does not model the framework's cycle checks. For example, a `stackId` naming the caller's own stack is not refused.
- `tryFindChild` finding a construct that is not a stack: the stage's children are stacks only.
- The one-line forwarding members (`addAlias`, `addEventSourceMapping`, `addPermission`, `addToRolePolicy`, the `grantInvoke*` methods, `addEventSource`, `configureAsyncInvoke`, `addFunctionUrl`), and the `lambda` and `currentVersion` getters. They only hand their arguments to the wrapped function or return it.
- Decorators and telemetry (`@propertyInjectable`, `@MethodMetadata`, `addConstructMetadata`, `PROPERTY_INJECTION_ID`): framework metadata.
- `aws-stepfunctions-tasks/test/emr/emr-cancel-step.test.ts`: its assertions are about JSON that framework code produces. That code is not part of this model.
