/** The Lambda@Edge construct: where its function is created, how the
    function's ARN reaches a stack outside `us-east-1`, the support stack it
    gets or creates, the trust statement it adds to the function's role, and
    the members that are fixed by Lambda@Edge's restrictions. */
module EdgeFunctions {
  import opened JsStrings
  import opened Wrappers
  import opened Framework
  import opened EdgeNaming

  /** The `ValidationError`s the construct throws. */
  datatype EdgeError =
    | RegionNotExplicit
    | NotInStage
    | ConnectionsUnsupported
    | LatestVersionUnsupported
  {
    function Message(): string {
      match this
      case RegionNotExplicit => "stacks which use EdgeFunctions must have an explicitly set region"
      case NotInStage => "stacks which use EdgeFunctions must be part of a CDK app or stage"
      case ConnectionsUnsupported => "Lambda@Edge does not support connections"
      case LatestVersionUnsupported => "$LATEST function version cannot be used for Lambda@Edge"
    }
  }

  /** The environment value of a support stack's region. */
  const EdgeRegionValue: EnvValue := EnvValue(EdgeRegion, true)

  // ---------------------------------------------------------------------
  // Placement

  datatype Placement = InRegion | CrossRegion

  /** The function is created next to the construct only when the stack's
      region is known at synthesis time and is `us-east-1`. */
  function PlacementFor(region: EnvValue): Placement {
    if region.resolved && region.text == EdgeRegion then InRegion else CrossRegion
  }

  /** In-region exactly for a resolved `us-east-1`; so any unresolved region,
      whatever its placeholder text, goes the cross-region way. */
  lemma PlacementInRegionIff(region: EnvValue)
    ensures PlacementFor(region) == InRegion <==> region.resolved && region.text == EdgeRegion
    ensures !region.resolved ==> PlacementFor(region) == CrossRegion
  {
  }

  // ---------------------------------------------------------------------
  // The trust statement

  const EdgeLambdaService: JsString := Ascii("edgelambda.amazonaws.com")

  /** The action a service principal is trusted with (`assumeRoleAction`). */
  const AssumeRoleAction: JsString := Ascii("sts:AssumeRole")

  /** Lets the Lambda@Edge service assume the function's role. */
  const EdgeLambdaTrustStatement: PolicyStatement :=
    PolicyStatement(Allow, [ServicePrincipal(EdgeLambdaService)], [AssumeRoleAction])

  /** The statement is added only to a role defined in the app that has a
      trust policy; imported roles are left alone. */
  predicate TrustStatementApplies(role: Role)
    reads role
  {
    role.isRole && role.assumeRolePolicy != null
  }

  method AddEdgeLambdaToRoleTrustStatement(role: Role)
    modifies role.assumeRolePolicy
    ensures TrustStatementApplies(role) ==>
              role.assumeRolePolicy.statements
              == old(role.assumeRolePolicy.statements) + [EdgeLambdaTrustStatement]
    ensures !TrustStatementApplies(role) && role.assumeRolePolicy != null ==>
              unchanged(role.assumeRolePolicy)
  {
    if role.isRole && role.assumeRolePolicy != null {
      var document := role.assumeRolePolicy;
      document.statements := document.statements + [EdgeLambdaTrustStatement];
    }
  }

  // ---------------------------------------------------------------------
  // The constructs the edge function creates

  /** Where a `lambda.Function` was created: under the edge function
      construct itself, or in a support stack. */
  datatype FunctionScope = UnderEdgeFunction | InSupportStack(stack: Stack)

  /** A `lambda.Function`: where it lives, its construct id and the role it
      runs with (the caller's or one the framework generates). */
  datatype LambdaFunction = LambdaFunction(scope: FunctionScope, id: JsString, role: Role)

  /** The `ssm.StringParameter` created under a cross-region function: its
      name, and the function whose current version's ARN it stores. */
  datatype StringParameter = StringParameter(parameterName: JsString, holdsEdgeArnOf: LambdaFunction)

  /** The parts of an ARN handed to `formatArn`; the partition and account
      are filled in by the framework. */
  datatype ArnComponents = ArnComponents(service: JsString, region: JsString, resource: JsString, resourceName: JsString)

  /** The statement granted to the reader's provider. */
  datatype ReaderPolicy = ReaderPolicy(effect: Effect, resource: ArnComponents, actions: seq<JsString>)

  /** The custom resource that reads a parameter in `us-east-1`. */
  datatype ArnReader = ArnReader(resourceType: JsString, region: JsString, parameterName: JsString, policy: ReaderPolicy)

  /** Where the construct's ARN comes from: the current version of a
      function in the same stack, or an attribute of the ARN reader. */
  datatype EdgeArn =
    | CurrentVersionEdgeArn(fn: LambdaFunction)
    | ReaderAttribute(reader: ArnReader, attribute: JsString)

  /** What a creation path yields; `arnParameter` is the parameter created
      alongside the function (cross-region only). */
  datatype FunctionConfig = FunctionConfig(edgeFunction: LambdaFunction, edgeArn: EdgeArn, arnParameter: Option<StringParameter>)

  const ReaderResourceType: JsString := Ascii("Custom::CrossRegionStringParameterReader")
  const FunctionArnAttribute: JsString := Ascii("FunctionArn")

  /** One policy for all readers: any parameter under the shared prefix. */
  const ReaderPolicyForAll: ReaderPolicy :=
    ReaderPolicy(Allow, ArnComponents(Ascii("ssm"), EdgeRegion, Ascii("parameter"), ReaderGrantResourceName),
                 [Ascii("ssm:GetParameter")])

  /** The reader of one parameter. */
  function ArnReaderFor(parameterName: JsString): (reader: ArnReader)
    ensures reader.parameterName == parameterName && reader.region == EdgeRegion
  {
    ArnReader(ReaderResourceType, EdgeRegion, parameterName, ReaderPolicyForAll)
  }

  /** The parameter the cross-region path writes is one the reader it creates
      is allowed to read, in the region that reader reads from. */
  lemma ReaderCanReadParameter(region: JsString, path: JsString)
    ensures var reader := ArnReaderFor(ParameterName(region, path));
      && reader.region == reader.policy.resource.region == EdgeRegion
      && reader.policy.effect == Allow
      && reader.policy.resource.service == Ascii("ssm")
      && GlobMatches(reader.policy.resource.resourceName, ParameterArnResourceName(reader.parameterName))
  {
    ReaderGrantCoversParameterName(region, path);
  }

  /** The cross-region path's first step: refuse an unresolved region, else
      name the parameter after the region and the sanitised construct path. */
  function CrossRegionParameterName(region: EnvValue, path: JsString): (r: Result<JsString, EdgeError>)
    ensures r.Failure? <==> !region.resolved
    ensures r.Failure? ==> r.error == RegionNotExplicit
  {
    if !region.resolved then Failure(RegionNotExplicit) else Success(ParameterName(region.text, path))
  }

  /** A resolved region always yields a name under the reader's grant. */
  lemma CrossRegionParameterNameReadable(region: EnvValue, path: JsString)
    requires region.resolved
    ensures var r := CrossRegionParameterName(region, path);
      && r.Success?
      && r.value[..|ParameterNameHead|] == ParameterNameHead
      && GlobMatches(ReaderGrantResourceName, ParameterArnResourceName(r.value))
  {
    ParameterNameLayout(region.text, path);
    ReaderGrantCoversParameterName(region.text, path);
  }

  /** An unresolved region never gets a function: it is not in-region, and
      the cross-region path rejects it. */
  lemma UnresolvedRegionRejected(region: EnvValue, path: JsString)
    requires !region.resolved
    ensures PlacementFor(region) == CrossRegion
    ensures CrossRegionParameterName(region, path) == Failure(RegionNotExplicit)
  {
  }

  // ---------------------------------------------------------------------
  // The support stack

  /** What `edgeStack` does to the stage and the calling stack: the child
      with the derived id is reused, or else a new stack in `us-east-1` with
      the caller's account is added under that id; the calling stack then
      depends on it, and no other child changes. */
  twostate predicate GotOrCreatedEdgeStack(stack: Stack, stackId: Option<JsString>, new support: Stack)
    requires stack.stage != null
    reads stack, stack.stage
  {
    var stage, id := stack.stage, EdgeStackId(stackId, stack.addr);
    && (id in old(stage.children) ==>
          support == old(stage.children[id]) && stage.children == old(stage.children))
    && (id !in old(stage.children) ==>
          && fresh(support)
          && support.stage == stage && support.id == id
          && support.region == EdgeRegionValue && support.account == stack.account
          && stage.children == old(stage.children)[id := support])
    && stack.dependencies == old(stack.dependencies) + {support}
  }

  /** Nothing the construct touches has changed. */
  twostate predicate NothingCreated(stack: Stack, trustPolicy: PolicyDocument?)
    reads stack, stack.stage, trustPolicy
  {
    && unchanged(stack)
    && (stack.stage != null ==> unchanged(stack.stage))
    && (trustPolicy != null ==> unchanged(trustPolicy))
  }

  // ---------------------------------------------------------------------
  // Metrics

  /** A value in a metric options object: a string, or any other setting
      (a duration, a statistic, a map) known only by identity. */
  datatype PropValue = Text(text: JsString) | Setting(id: nat)

  /** A metric options object, key by key. */
  type MetricOptions = map<JsString, PropValue>

  const RegionKey: JsString := Ascii("region")

  datatype MetricName = NamedMetric(name: JsString) | Duration | Errors | Invocations | Throttles

  /** A metric request forwarded to the underlying function. */
  datatype MetricQuery = MetricQuery(target: LambdaFunction, metric: MetricName, options: MetricOptions)

  // ---------------------------------------------------------------------
  // The construct

  class EdgeFunction {
    /** The stack the construct is in, and its construct path. */
    const stack: Stack
    const path: JsString

    const edgeArn: EdgeArn
    const functionArn: EdgeArn
    /** The wrapped function (`_edgeFunction`, exposed as `lambda`). */
    const lambda: LambdaFunction
    const grantPrincipal: Role
    const isBoundToVpc: bool
    /** Declared but never assigned by the construct, so always absent. */
    const role: Option<Role>
    /** The SSM parameter created for a cross-region function. */
    const arnParameter: Option<StringParameter>

    /** Assigns the read-only fields from the chosen path's result. */
    constructor Init(stack: Stack, path: JsString, config: FunctionConfig)
      ensures this.stack == stack && this.path == path
      ensures edgeArn == config.edgeArn && functionArn == config.edgeArn
      ensures lambda == config.edgeFunction && grantPrincipal == config.edgeFunction.role
      ensures !isBoundToVpc && role == None
      ensures arnParameter == config.arnParameter
    {
      this.stack := stack;
      this.path := path;
      edgeArn := config.edgeArn;
      functionArn := config.edgeArn;
      lambda := config.edgeFunction;
      grantPrincipal := config.edgeFunction.role;
      isBoundToVpc := false;
      role := None;
      arnParameter := config.arnParameter;
    }

    /** Builds the construct with id `id` at `path` in `stack`.
        `functionRole` is the role the new `lambda.Function` ends up with. */
    static method New(stack: Stack, path: JsString, id: JsString, stackId: Option<JsString>, functionRole: Role)
      returns (r: Result<EdgeFunction, EdgeError>)
      modifies stack, stack.stage, functionRole.assumeRolePolicy
      ensures PlacementFor(stack.region) == InRegion ==>
                && r.Success?
                && r.value.lambda == LambdaFunction(UnderEdgeFunction, Ascii("Fn"), functionRole)
                && r.value.edgeArn == CurrentVersionEdgeArn(r.value.lambda)
                && r.value.arnParameter == None
                && unchanged(stack) && (stack.stage != null ==> unchanged(stack.stage))
      ensures !stack.region.resolved ==>
                r == Failure(RegionNotExplicit) && NothingCreated(stack, functionRole.assumeRolePolicy)
      ensures stack.region.resolved && PlacementFor(stack.region) == CrossRegion && stack.stage == null ==>
                r == Failure(NotInStage) && NothingCreated(stack, functionRole.assumeRolePolicy)
      ensures stack.region.resolved && PlacementFor(stack.region) == CrossRegion && stack.stage != null ==>
                var name := ParameterName(stack.region.text, path);
                && r.Success?
                && r.value.lambda.scope.InSupportStack?
                && GotOrCreatedEdgeStack(stack, stackId, r.value.lambda.scope.stack)
                && r.value.lambda.id == id && r.value.lambda.role == functionRole
                && r.value.arnParameter == Some(StringParameter(name, r.value.lambda))
                && r.value.edgeArn == ReaderAttribute(ArnReaderFor(name), FunctionArnAttribute)
      ensures r.Success? ==>
                && fresh(r.value)
                && r.value.stack == stack && r.value.path == path
                && r.value.functionArn == r.value.edgeArn
                && r.value.grantPrincipal == functionRole
                && !r.value.isBoundToVpc && r.value.role == None
      ensures r.Success? && TrustStatementApplies(functionRole) ==>
                functionRole.assumeRolePolicy.statements
                == old(functionRole.assumeRolePolicy.statements) + [EdgeLambdaTrustStatement]
      ensures (r.Failure? || !TrustStatementApplies(functionRole)) && functionRole.assumeRolePolicy != null ==>
                unchanged(functionRole.assumeRolePolicy)
    {
      var config: FunctionConfig;
      if PlacementFor(stack.region) == InRegion {
        config := CreateInRegionFunction(functionRole);
      } else {
        var created := CreateCrossRegionFunction(stack, path, id, stackId, functionRole);
        if created.Failure? {
          return Failure(created.error);
        }
        config := created.value;
      }
      var f := new EdgeFunction.Init(stack, path, config);
      r := Success(f);
    }

    /** Creates the function under the construct itself, named `Fn`. */
    static method CreateInRegionFunction(functionRole: Role) returns (config: FunctionConfig)
      modifies functionRole.assumeRolePolicy
      ensures config.edgeFunction == LambdaFunction(UnderEdgeFunction, Ascii("Fn"), functionRole)
      ensures config.edgeArn == CurrentVersionEdgeArn(config.edgeFunction)
      ensures config.arnParameter == None
      ensures TrustStatementApplies(functionRole) ==>
                functionRole.assumeRolePolicy.statements
                == old(functionRole.assumeRolePolicy.statements) + [EdgeLambdaTrustStatement]
      ensures !TrustStatementApplies(functionRole) && functionRole.assumeRolePolicy != null ==>
                unchanged(functionRole.assumeRolePolicy)
    {
      var edgeFunction := LambdaFunction(UnderEdgeFunction, Ascii("Fn"), functionRole);
      AddEdgeLambdaToRoleTrustStatement(functionRole);
      config := FunctionConfig(edgeFunction, CurrentVersionEdgeArn(edgeFunction), None);
    }

    /** Creates the function in a support stack in `us-east-1`, stores its
        current version's ARN in an SSM parameter there, and reads it back
        through a custom resource. */
    static method CreateCrossRegionFunction(stack: Stack, path: JsString, id: JsString,
                                            stackId: Option<JsString>, functionRole: Role)
      returns (r: Result<FunctionConfig, EdgeError>)
      modifies stack, stack.stage, functionRole.assumeRolePolicy
      ensures !stack.region.resolved ==>
                r == Failure(RegionNotExplicit) && NothingCreated(stack, functionRole.assumeRolePolicy)
      ensures stack.region.resolved && stack.stage == null ==>
                r == Failure(NotInStage) && NothingCreated(stack, functionRole.assumeRolePolicy)
      ensures stack.region.resolved && stack.stage != null ==>
                var name := ParameterName(stack.region.text, path);
                && r.Success?
                && r.value.edgeFunction.scope.InSupportStack?
                && GotOrCreatedEdgeStack(stack, stackId, r.value.edgeFunction.scope.stack)
                && r.value.edgeFunction.id == id && r.value.edgeFunction.role == functionRole
                && r.value.arnParameter == Some(StringParameter(name, r.value.edgeFunction))
                && r.value.edgeArn == ReaderAttribute(ArnReaderFor(name), FunctionArnAttribute)
      ensures r.Success? && TrustStatementApplies(functionRole) ==>
                functionRole.assumeRolePolicy.statements
                == old(functionRole.assumeRolePolicy.statements) + [EdgeLambdaTrustStatement]
      ensures (r.Failure? || !TrustStatementApplies(functionRole)) && functionRole.assumeRolePolicy != null ==>
                unchanged(functionRole.assumeRolePolicy)
    {
      var named := CrossRegionParameterName(stack.region, path);
      if named.Failure? {
        return Failure(named.error);
      }
      var parameterName := named.value;
      var supportStack := EdgeStack(stack, stackId);
      if supportStack.Failure? {
        return Failure(supportStack.error);
      }
      var edgeFunction := LambdaFunction(InSupportStack(supportStack.value), id, functionRole);
      AddEdgeLambdaToRoleTrustStatement(functionRole);
      var parameter := StringParameter(parameterName, edgeFunction);
      var edgeArn := ReaderAttribute(ArnReaderFor(parameterName), FunctionArnAttribute);
      r := Success(FunctionConfig(edgeFunction, edgeArn, Some(parameter)));
    }

    /** Gets or creates the support stack in the enclosing stage and makes
        the calling stack depend on it. */
    static method EdgeStack(stack: Stack, stackId: Option<JsString>) returns (r: Result<Stack, EdgeError>)
      modifies stack, stack.stage
      ensures stack.stage == null ==> r == Failure(NotInStage) && unchanged(stack)
      ensures stack.stage != null ==> r.Success? && GotOrCreatedEdgeStack(stack, stackId, r.value)
    {
      var stage := stack.stage;
      if stage == null {
        return Failure(NotInStage);
      }
      var edgeStackId := EdgeStackId(stackId, stack.addr);
      var edgeStack: Stack;
      if edgeStackId in stage.children {
        edgeStack := stage.children[edgeStackId];
      } else {
        edgeStack := new Stack(stage, edgeStackId, EdgeRegionValue, stack.account);
        stage.children := stage.children[edgeStackId := edgeStack];
      }
      stack.dependencies := stack.dependencies + {edgeStack};
      r := Success(edgeStack);
    }

    /** Lambda@Edge functions cannot be placed in a VPC. */
    function Connections(): (r: Result<(), EdgeError>)
      ensures r.Failure? && r.error == ConnectionsUnsupported
    {
      Failure(ConnectionsUnsupported)
    }

    /** `$LATEST` cannot be used with Lambda@Edge. */
    function LatestVersion(): (r: Result<(), EdgeError>)
      ensures r.Failure? && r.error == LatestVersionUnsupported
    {
      Failure(LatestVersionUnsupported)
    }

    /** Every metric (`metric`, `metricDuration`, `metricErrors`,
        `metricInvocations`, `metricThrottles`) is asked of the wrapped
        function with the caller's options spread first and the region set
        to `us-east-1` after them, so the region always wins. */
    function Metric(metric: MetricName, props: Option<MetricOptions>): (q: MetricQuery)
      ensures q.target == lambda && q.metric == metric
      ensures RegionKey in q.options && q.options[RegionKey] == Text(EdgeRegion)
      ensures q.options.Keys == (if props.Some? then props.value.Keys else {}) + {RegionKey}
      ensures forall k :: k in q.options && k != RegionKey ==> props.Some? && q.options[k] == props.value[k]
    {
      var spread := if props.Some? then props.value else map[];
      MetricQuery(lambda, metric, spread[RegionKey := Text(EdgeRegion)])
    }
  }

  // ---------------------------------------------------------------------
  // A client

  /** Two edge functions in one stack outside `us-east-1`, neither naming a
      `stackId`, end up in the same support stack, which is in `us-east-1`
      with the stack's account, and their distinct paths give distinct
      parameters. */
  method SupportStackSharedWithinStack(region: JsString, account: EnvValue, path1: JsString, path2: JsString)
    returns (first: Stack, second: Stack, name1: JsString, name2: JsString)
    requires region != EdgeRegion
    requires AllParameterNameUnits(path1) && AllParameterNameUnits(path2) && path1 != path2
    ensures first == second
    ensures first.region == EdgeRegionValue && first.account == account
    ensures name1 != name2
  {
    var stage := new Stage();
    var stack := new Stack(stage, Ascii("App"), EnvValue(region, true), account);
    var role := new Role(true, null);
    var f1 := EdgeFunction.New(stack, path1, Ascii("Fn1"), None, role);
    var f2 := EdgeFunction.New(stack, path2, Ascii("Fn2"), None, role);
    first, second := f1.value.lambda.scope.stack, f2.value.lambda.scope.stack;
    name1, name2 := f1.value.arnParameter.value.parameterName, f2.value.arnParameter.value.parameterName;
    SanitizeFixesExactlyValidNames(path1);
    SanitizeFixesExactlyValidNames(path2);
    ParameterNamesCollideIff(region, path1, path2);
  }
}
