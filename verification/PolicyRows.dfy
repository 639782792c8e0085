/** The tables that the policy engine reads, and the tables that `compile_policy_facts` builds. */
module PolicyRows {
  import opened Wrappers
  import opened PolicyTable

  datatype SessionRow = SessionRow(session: string, user: string, team: string, agent: string, goalClass: string)
  datatype RequestedTool = RequestedTool(session: string, tool: string)
  datatype RequestedResource = RequestedResource(session: string, resource: string)
  datatype SchemaRow = SchemaRow(session: string, tool: string, valid: bool, repairable: bool)
  datatype ToolScopeRow = ToolScopeRow(tool: string, scope: string, accessKind: string, risk: string)
  datatype ResourceRow = ResourceRow(resource: string, team: string, sensitivity: string, external: bool)
  datatype DelegationRow = DelegationRow(session: string, user: string, agent: string)
  datatype SimilarRow = SimilarRow(session: string, recipe: string, score: int, status: string, reified: bool)
  datatype RecipeToolRow = RecipeToolRow(recipe: string, tool: string)
  datatype RecipeScopeRow = RecipeScopeRow(recipe: string, scope: string, approvalMode: string)
  datatype GrantRow = GrantRow(session: string, scope: string, resource: string)
  datatype PathRow = PathRow(session: string, tool: string, resource: string, scope: string, pathText: string)
  datatype CredentialRequiredRow = CredentialRequiredRow(tool: string, credentialClass: string)
  datatype BindingRow = BindingRow(
    binding: string, tool: string, scope: string, credentialRef: string, provider: string, refStatus: string,
    injectionMode: string, ownerTeam: string, exposesSecret: bool)
  datatype JudgeRow = JudgeRow(session: string, tool: string, name: string, value: bool, confidence: int)
  datatype ViolationRow = ViolationRow(session: string, tool: string, resource: string, kind: string)
  datatype FlagRow = FlagRow(session: string, name: string, value: bool)
  datatype TrustRow = TrustRow(session: string, score: int, belowMinimum: bool, belowSensitive: bool)

  /** `CompiledPolicyFacts.rows`: one list of rows per relation. */
  datatype Rows = Rows(
    session: seq<SessionRow>,
    requestedTool: seq<RequestedTool>,
    requestedResource: seq<RequestedResource>,
    schemaState: seq<SchemaRow>,
    toolScope: seq<ToolScopeRow>,
    resource: seq<ResourceRow>,
    delegation: seq<DelegationRow>,
    similarRecipe: seq<SimilarRow>,
    recipeTool: seq<RecipeToolRow>,
    recipeScope: seq<RecipeScopeRow>,
    currentGrant: seq<GrantRow>,
    contextPath: seq<PathRow>,
    credentialRequired: seq<CredentialRequiredRow>,
    credentialBinding: seq<BindingRow>,
    judgeFact: seq<JudgeRow>,
    violation: seq<ViolationRow>,
    policyFlag: seq<FlagRow>,
    agentTrust: seq<TrustRow>)

  /** Scores and trust are thousandths. The trust thresholds come from the configuration. */
  datatype Thresholds = Thresholds(minimum: int, sensitive: int)

  const MIN_RECIPE_SCORE := 820

  const ADMIN_SCOPES: set<string> := {"admin", "linear:admin", "slack:admin", "scopememory:admin"}

  /** The values that `compile_policy_facts` reads from its context before it builds the rows. */
  datatype Inputs = Inputs(
    session: string, user: string, team: string, agent: string, goalClass: string,
    tool: string, resource: string, recipe: string, scope: string, resourceTeam: string,
    schemaValid: bool, schemaRepairable: bool,
    accessKind: string, risk: string, external: bool, sensitivity: string,
    grantPresent: bool, delegationPresent: bool, recipePredictsTool: bool, approvalMode: Option<string>,
    reified: bool, score: int, contextPath: seq<string>,
    credentialClass: Option<string>, binding: Option<BindingRow>, judges: seq<JudgeRow>,
    violations: seq<string>, snapshotPresent: bool, breakGlass: Option<bool>, externalWritePredicted: Option<bool>,
    trust: Option<int>, thresholds: Thresholds)

  predicate KnownRecipe(i: Inputs) {
    i.recipe != "recipe_unknown"
  }

  /** The text under the path hash. */
  function JoinPath(path: seq<string>): string {
    if path == [] then "" else if |path| == 1 then path[0] else path[0] + "|" + JoinPath(path[1..])
  }

  function FlagRows(session: string, name: string, value: Option<bool>): seq<FlagRow> {
    if value.Some? then [FlagRow(session, name, value.value)] else []
  }

  /** The rows of a compiled fact set. */
  function RowsOf(i: Inputs): (r: Rows) {
    Rows(
      session := [SessionRow(i.session, i.user, i.team, i.agent, i.goalClass)],
      requestedTool := [RequestedTool(i.session, i.tool)],
      requestedResource := [RequestedResource(i.session, i.resource)],
      schemaState := [SchemaRow(i.session, i.tool, i.schemaValid, i.schemaRepairable)],
      toolScope := [ToolScopeRow(i.tool, i.scope, i.accessKind, i.risk)],
      resource := [ResourceRow(i.resource, i.resourceTeam, i.sensitivity, i.external)],
      delegation := if i.delegationPresent then [DelegationRow(i.session, i.user, i.agent)] else [],
      similarRecipe := if KnownRecipe(i) then [SimilarRow(i.session, i.recipe, i.score, "accepted", i.reified)] else [],
      recipeTool := if i.recipePredictsTool && KnownRecipe(i) then [RecipeToolRow(i.recipe, i.tool)] else [],
      recipeScope := if i.approvalMode.Some? && KnownRecipe(i) then [RecipeScopeRow(i.recipe, i.scope, i.approvalMode.value)] else [],
      currentGrant := if i.grantPresent then [GrantRow(i.session, i.scope, i.resource)] else [],
      contextPath := if i.contextPath != [] then [PathRow(i.session, i.tool, i.resource, i.scope, JoinPath(i.contextPath))] else [],
      credentialRequired := if i.credentialClass.Some? then [CredentialRequiredRow(i.tool, i.credentialClass.value)] else [],
      credentialBinding := if i.binding.Some? then [i.binding.value] else [],
      judgeFact := i.judges,
      violation := seq(|i.violations|, k requires 0 <= k < |i.violations| =>
        ViolationRow(i.session, i.tool, i.resource, i.violations[k])),
      policyFlag := [FlagRow(i.session, "context_snapshot_present", i.snapshotPresent)]
        + FlagRows(i.session, "break_glass", i.breakGlass)
        + FlagRows(i.session, "external_write_predicted", i.externalWritePredicted),
      agentTrust := if i.trust.None? then [] else
        [TrustRow(i.session, i.trust.value, i.trust.value < i.thresholds.minimum, i.trust.value < i.thresholds.sensitive)])
  }

  predicate CredentialOk(i: Inputs) {
    i.credentialClass.None?
    || (i.binding.Some? && i.binding.value.tool == i.tool && i.binding.value.scope == i.scope
        && i.binding.value.refStatus == "active" && !i.binding.value.exposesSecret)
  }

  predicate LowStakes(risk: string, sensitivity: string, external: bool) {
    risk in {"low", "medium"} && sensitivity in {"low", "normal"} && !external
  }

  predicate SafeToAutomate(i: Inputs) {
    LowStakes(i.risk, i.sensitivity, i.external) && CredentialOk(i)
  }

  /** The signals of a compiled fact set; the two evaluators read the recipe differently, hence the parameter. */
  function SignalsOf(i: Inputs, recipeCounts: bool): (s: Signals) {
    Signals(
      schemaValid := i.schemaValid,
      schemaRepairable := i.schemaRepairable,
      delegated := i.delegationPresent,
      belowMinimum := i.trust.Some? && i.trust.value < i.thresholds.minimum,
      belowSensitive := i.trust.Some? && i.trust.value < i.thresholds.sensitive,
      sameTeam := i.team == i.resourceTeam,
      predictsTool := recipeCounts && i.recipePredictsTool,
      predictsScope := recipeCounts && i.approvalMode.Some?,
      approvalMode := if KnownRecipe(i) then i.approvalMode else None,
      externalWrite := i.external && i.accessKind == "write",
      externalWritePredicted := i.externalWritePredicted == Some(true),
      adminScope := i.scope in ADMIN_SCOPES,
      breakGlass := i.breakGlass == Some(true),
      violations := set v <- i.violations :: v,
      unreifiedHit := KnownRecipe(i) && !i.reified,
      snapshotPresent := i.snapshotPresent,
      memoryConsistent := i.contextPath != [],
      grantPresent := i.grantPresent,
      safeToAutomate := SafeToAutomate(i))
  }

  /** The Python evaluator lets any recipe row count. */
  function PythonSignals(i: Inputs): Signals {
    SignalsOf(i, KnownRecipe(i))
  }

  /** The Datalog program asks for an accepted, reified hit with a score of at least 0.82. */
  function DatalogSignals(i: Inputs): Signals {
    SignalsOf(i, KnownRecipe(i) && i.reified && i.score >= MIN_RECIPE_SCORE)
  }
}
