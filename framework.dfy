/** The few framework objects the Lambda@Edge construct reads and updates.
    Their own behaviour (synthesis, token resolution, dependency ordering) is
    not part of this model; only the state the construct touches is kept. */
module Framework {
  import opened JsStrings

  /** A region or account of a stack's environment. `resolved` is false when
      the value is an unresolved token (the stack was defined without an
      explicit environment), so its text is a placeholder, not a name. */
  datatype EnvValue = EnvValue(text: JsString, resolved: bool)

  /** A stage (an app or a nested stage): the stacks it holds, by construct id. */
  class Stage {
    var children: map<JsString, Stack>

    constructor ()
      ensures children == map[]
    {
      children := map[];
    }
  }

  /** A stack: its environment, the stage it belongs to (`Stage.of`), and the
      stacks it has been made to depend on (`addDependency`). */
  class Stack {
    const stage: Stage?
    const id: JsString
    /** The construct address, a hash the framework derives from the path. */
    const addr: JsString
    const region: EnvValue
    const account: EnvValue
    var dependencies: set<Stack>

    constructor (stage: Stage?, id: JsString, region: EnvValue, account: EnvValue)
      ensures this.stage == stage && this.id == id
      ensures this.region == region && this.account == account
      ensures dependencies == {}
    {
      this.stage := stage;
      this.id := id;
      this.region := region;
      this.account := account;
      dependencies := {};
    }
  }

  datatype Effect = Allow | Deny

  datatype Principal = ServicePrincipal(service: JsString)

  /** An IAM policy statement; a fresh `PolicyStatement()` allows, and has no
      principals and no actions. */
  datatype PolicyStatement = PolicyStatement(effect: Effect, principals: seq<Principal>, actions: seq<JsString>)

  /** A policy document whose statements are appended in place. */
  class PolicyDocument {
    var statements: seq<PolicyStatement>

    constructor (statements: seq<PolicyStatement>)
      ensures this.statements == statements
    {
      this.statements := statements;
    }
  }

  /** An IAM role. `isRole` is what `Role.isRole` answers: true for a role
      defined in this app, false for an imported one. `assumeRolePolicy` is
      its trust (assume-role) policy document, when it has one; any role may
      be built with or without one, and the construct only ever changes the
      document of a defined role. */
  class Role {
    const isRole: bool
    var assumeRolePolicy: PolicyDocument?

    constructor (isRole: bool, assumeRolePolicy: PolicyDocument?)
      ensures this.isRole == isRole && this.assumeRolePolicy == assumeRolePolicy
    {
      this.isRole := isRole;
      this.assumeRolePolicy := assumeRolePolicy;
    }
  }
}
