/** `decide` (platform/cozo_policy.py): compile the facts, query the rules, and seal the answer with a proof hash. */
module PolicyDecide {
  import opened Wrappers
  import opened Json
  import opened Canonical
  import opened PyText
  import opened PolicyTable
  import opened PolicyRows
  import opened PolicyDatalog
  import opened PolicyDatalogTable
  import opened PolicyCompile

  // ---- The rows as data, and as fact strings ----

  function Table<T>(name: string, rows: seq<T>, cells: T -> seq<Value>): Field {
    Field(name, Arr(seq(|rows|, k requires 0 <= k < |rows| => Arr(cells(rows[k])))))
  }

  /** The `rows` dictionary of a compiled fact set, in source order. */
  function RowsJson(r: Rows): seq<Field> {
    [ Table("session", r.session, (x: SessionRow) => [Str(x.session), Str(x.user), Str(x.team), Str(x.agent), Str(x.goalClass)]),
      Table("requested_tool", r.requestedTool, (x: RequestedTool) => [Str(x.session), Str(x.tool)]),
      Table("requested_resource", r.requestedResource, (x: RequestedResource) => [Str(x.session), Str(x.resource)]),
      Table("schema_state", r.schemaState, (x: SchemaRow) => [Str(x.session), Str(x.tool), Bool(x.valid), Bool(x.repairable)]),
      Table("tool_scope", r.toolScope, (x: ToolScopeRow) => [Str(x.tool), Str(x.scope), Str(x.accessKind), Str(x.risk)]),
      Table("resource", r.resource, (x: ResourceRow) => [Str(x.resource), Str(x.team), Str(x.sensitivity), Bool(x.external)]),
      Table("delegation", r.delegation, (x: DelegationRow) => [Str(x.session), Str(x.user), Str(x.agent)]),
      Table("similar_recipe", r.similarRecipe,
            (x: SimilarRow) => [Str(x.session), Str(x.recipe), Num(x.score), Str(x.status), Bool(x.reified)]),
      Table("recipe_tool", r.recipeTool, (x: RecipeToolRow) => [Str(x.recipe), Str(x.tool)]),
      Table("recipe_scope", r.recipeScope, (x: RecipeScopeRow) => [Str(x.recipe), Str(x.scope), Str(x.approvalMode)]),
      Table("current_grant", r.currentGrant, (x: GrantRow) => [Str(x.session), Str(x.scope), Str(x.resource)]),
      Table("context_path", r.contextPath,
            (x: PathRow) => [Str(x.session), Str(x.tool), Str(x.resource), Str(x.scope), Str(x.pathText)]),
      Table("tool_credential_required", r.credentialRequired, (x: CredentialRequiredRow) => [Str(x.tool), Str(x.credentialClass)]),
      Table("credential_binding", r.credentialBinding,
            (x: BindingRow) => [Str(x.binding), Str(x.tool), Str(x.scope), Str(x.credentialRef), Str(x.provider), Str(x.refStatus),
                                Str(x.injectionMode), Str(x.ownerTeam), Bool(x.exposesSecret)]),
      Table("judge_fact", r.judgeFact, (x: JudgeRow) => [Str(x.session), Str(x.tool), Str(x.name), Bool(x.value), Num(x.confidence)]),
      Table("violation", r.violation, (x: ViolationRow) => [Str(x.session), Str(x.tool), Str(x.resource), Str(x.kind)]),
      Table("policy_flag", r.policyFlag, (x: FlagRow) => [Str(x.session), Str(x.name), Bool(x.value)]),
      Table("agent_trust_state", r.agentTrust,
            (x: TrustRow) => [Str(x.session), Num(x.score), Bool(x.belowMinimum), Bool(x.belowSensitive)]) ]
  }

  /** `_render_fact_value` */
  function RenderCell(v: Value): string {
    match v
    case Bool(b) => if b then "true" else "false"
    case _ => TextOf(v)
  }

  function RenderCells(cells: seq<Value>): string {
    if cells == [] then "" else if |cells| == 1 then RenderCell(cells[0]) else RenderCell(cells[0]) + ", " + RenderCells(cells[1..])
  }

  function RenderRow(name: string, row: Value): string {
    name + "(" + (if row.Arr? then RenderCells(row.items) else "") + ")"
  }

  function RelationFacts(name: string, rows: seq<Value>): seq<string> {
    seq(|rows|, k requires 0 <= k < |rows| => RenderRow(name, rows[k]))
  }

  /** The fact strings of the relations, in the given order. */
  function FactStrings(tables: seq<Field>): seq<string> {
    if tables == [] then []
    else
      var t := tables[|tables| - 1];
      FactStrings(tables[..|tables| - 1]) + (if t.value.Arr? then RelationFacts(t.key, t.value.items) else [])
  }

  /** `_fact_strings`: one string for each row, relation by relation in name order. */
  method CollectFactStrings(rows: seq<Field>) returns (facts: seq<string>)
    ensures facts == FactStrings(SortFields(rows))
  {
    hide RenderRow, SortFields;
    var tables := SortFields(rows);
    facts := [];
    for i := 0 to |tables|
      invariant facts == FactStrings(tables[..i])
    {
      assert tables[..i + 1][..i] == tables[..i];
      if tables[i].value.Arr? {
        var items := tables[i].value.items;
        ghost var before := facts;
        for k := 0 to |items|
          invariant facts == before + RelationFacts(tables[i].key, items[..k])
        {
          assert RelationFacts(tables[i].key, items[..k + 1])
            == RelationFacts(tables[i].key, items[..k]) + [RenderRow(tables[i].key, items[k])];
          facts := facts + [RenderRow(tables[i].key, items[k])];
        }
        assert items[..|items|] == items;
      }
    }
    assert tables[..|tables|] == tables;
  }

  // ---- The decision ----

  datatype PolicyDecision = PolicyDecision(
    decision: Decision, reason: string, rule: Rule, sessionId: string, toolId: string, resourceId: string,
    requiredScope: string, proofHash: string)

  function DecisionText(d: Decision): string {
    match d
    case Allow => "ALLOW"
    case AutoApprove => "AUTO_APPROVE_EPHEMERAL_GRANT"
    case EscalateHuman => "ESCALATE_HUMAN"
    case Deny => "DENY"
    case Repair => "REPAIR"
  }

  function RuleText(rule: Rule): string {
    match rule
    case DenyLowTrust => "deny_low_trust"
    case DenyDirectSecretRead => "deny_direct_secret_read"
    case DenySecretExposure => "deny_secret_exposure"
    case DenyBulkExport => "deny_bulk_export"
    case DenyGoalExpansion => "deny_goal_expansion"
    case DenyAdminScope => "deny_admin_scope"
    case DenyExternalWrite => "deny_external_write"
    case DenyUnreifiedRecipeHit => "deny_unreified_recipe_hit"
    case DenyMissingContextPath => "deny_missing_context_path"
    case DenyNoDelegation => "deny_no_delegation"
    case DenyWrongTeam => "deny_wrong_team"
    case DenyUnpredictedTool => "deny_unpredicted_tool"
    case DenySchemaInvalid => "deny_schema_invalid"
    case RepairSchemaArgs => "repair_schema_args"
    case EscalateLowTrustExternal => "escalate_low_trust_external"
    case AllowCurrentGrant => "allow_current_grant"
    case AutoApproveRecipeScope => "auto_approve_recipe_scope"
    case EscalateHumanRequiredScope => "escalate_human_required_scope"
    case DenyDefault => "deny_default"
  }

  /** `_evaluate_with_cozo`: the one effective row, or the error about the number of rows. */
  ghost function EvaluateWithCozo(rows: Rows): Result<Candidate> {
    var effective := EffectiveQuery(rows);
    if |effective| != 1 then Err("policy query returned a wrong number of effective decisions")
    else var row :| row in effective; Ok(row)
  }

  lemma EvaluateWithCozoOf(i: Inputs)
    ensures EvaluateWithCozo(RowsOf(i)) == Ok(Outcome(Winner(DatalogSignals(i))))
  {
    hide EffectiveQuery, RowsOf, Winner;
    EffectiveQueryOf(i);
    UniqueWinner(i);
  }

  /** The candidates in the order of the candidates query, as the proof stores them. */
  function CandidateJson(db: Rows, rules: seq<Rule>): seq<Value> {
    if rules == [] then []
    else
      var c := Outcome(rules[0]);
      (if c in CandidateQuery(db) then
         [Obj([Field("decision", Str(DecisionText(c.decision))), Field("reason", Str(c.reason)),
               Field("rule", Str(RuleText(c.rule))), Field("precedence", Num(c.precedence))])]
       else []) + CandidateJson(db, rules[1..])
  }

  const BY_PRECEDENCE: seq<Rule> := [
    DenyLowTrust, DenyDirectSecretRead, DenySecretExposure, DenyBulkExport, DenyGoalExpansion, DenyAdminScope,
    DenyExternalWrite, DenyUnreifiedRecipeHit, DenyMissingContextPath, DenyNoDelegation, DenyWrongTeam,
    DenyUnpredictedTool, DenySchemaInvalid, RepairSchemaArgs, EscalateLowTrustExternal, AllowCurrentGrant,
    AutoApproveRecipeScope, EscalateHumanRequiredScope, DenyDefault]

  function Strings(texts: seq<string>): Value {
    Arr(seq(|texts|, k requires 0 <= k < |texts| => Str(texts[k])))
  }

  /** The texts that the compiler carries along without putting them into a row. */
  datatype Carried = Carried(
    goalHash: string, agentHost: string, idempotencyKey: string, signedGoalHash: string, snapshotId: string,
    doltCommit: string, recipeIndexCommit: string)

  function ReadCarried(ctx: Context): Carried {
    var facts := ctx.facts;
    var goalHash := TextOr(facts, "goal_hash", "");
    Carried(
      goalHash := goalHash,
      agentHost := TextOr(facts, "agent_host", "scopememory-demo"),
      idempotencyKey := TextOr(facts, "idempotency_key", ""),
      signedGoalHash := TextOr(facts, "signed_goal_hash", goalHash),
      snapshotId := Pick(ctx.snapshotId, facts, "context_snapshot_id", ""),
      doltCommit := Pick(ctx.doltCommit, facts, "dolt_commit", "demo-fixture"),
      recipeIndexCommit := Pick(ctx.recipeIndexCommit, facts, "recipe_index_commit", "demo-fixture"))
  }

  /** `Session` of the contracts. */
  datatype SessionContract = SessionContract(
    session: string, user: string, team: string, agent: string, goalClass: string, goalHash: string, agentHost: string)

  /** `ToolIntent` of the contracts. */
  datatype IntentContract = IntentContract(
    session: string, tool: string, resource: string, schemaValid: bool, schemaRepairable: bool, scope: string, accessKind: string,
    idempotencyKey: string, signedGoalHash: string)

  /** `CompiledPolicyFacts` */
  datatype Compiled = Compiled(
    session: SessionContract, intent: IntentContract, rows: Rows, facts: seq<string>, contextPath: seq<string>,
    snapshotId: string, doltCommit: string, recipeIndexCommit: string, factSetHash: string)

  /** The tree under the fact set hash. */
  function FactSetTree(rows: seq<Field>, facts: seq<string>): Value {
    Obj([Field("rows", Obj(rows)), Field("facts", Strings(facts))])
  }

  function CompiledFrom(sha: Value -> string, i: Inputs, c: Carried): Compiled {
    var rows := RowsOf(i);
    var facts := FactStrings(SortFields(RowsJson(rows)));
    Compiled(
      SessionContract(i.session, i.user, i.team, i.agent, i.goalClass, c.goalHash, c.agentHost),
      IntentContract(i.session, i.tool, i.resource, i.schemaValid, i.schemaRepairable, i.scope, i.accessKind, c.idempotencyKey,
                     c.signedGoalHash),
      rows, facts, i.contextPath, c.snapshotId, c.doltCommit, c.recipeIndexCommit,
      StableHash(sha, FactSetTree(RowsJson(rows), facts)))
  }

  /** `compile_policy_facts`; an error is an exception while the facts are read. */
  function Compile(sha: Value -> string, thresholds: Thresholds, ctx: Context): (r: Result<Compiled>) {
    match ReadInputs(ctx, thresholds)
    case Err(e) => Err(e)
    case Ok(i) => Ok(CompiledFrom(sha, i, ReadCarried(ctx)))
  }

  /** `_proof_rules`: the premises that the proof lists for a rule. */
  function ProofRules(rule: Rule): seq<string> {
    match rule
    case AllowCurrentGrant =>
      ["required_scope", "same_team_resource", "recipe_predicts_tool", "memory_consistent", "allow_current_grant"]
    case AutoApproveRecipeScope =>
      ["required_scope", "recipe_predicts_tool", "recipe_predicts_scope", "same_team_resource", "risk_auto_approvable",
       "resource_auto_approvable", "credential_ok", "auto_approve_recipe_scope"]
    case EscalateHumanRequiredScope =>
      ["required_scope", "recipe_predicts_tool", "recipe_predicts_scope", "same_team_resource", "memory_consistent",
       "escalate_human_required_scope"]
    case EscalateLowTrustExternal =>
      ["required_scope", "recipe_predicts_tool", "same_team_resource", "agent_trust_state", "low_trust_external_write",
       "escalate_low_trust_external"]
    case RepairSchemaArgs => ["schema_state", "repair_schema_args"]
    case _ => [RuleText(rule), "hard_deny", "policy_precedence"]
  }

  /** What the proof hash covers. */
  function ProofPayload(k: Compiled, c: Candidate): Value {
    Obj([Field("decision", Str(DecisionText(c.decision))), Field("session_id", Str(k.session.session)), Field("tool", Str(k.intent.tool)),
         Field("required_scope", Str(k.intent.scope)), Field("resource", Str(k.intent.resource)), Field("reason", Str(c.reason)),
         Field("rules", Strings(ProofRules(c.rule))), Field("facts", Strings(k.facts)), Field("context_path", Strings(k.contextPath)),
         Field("dolt_commit", Str(k.doltCommit)), Field("recipe_index_commit", Str(k.recipeIndexCommit)),
         Field("candidate_decisions", Arr(CandidateJson(k.rows, BY_PRECEDENCE))), Field("fact_set_hash", Str(k.factSetHash))])
  }

  /** The sealed answer of the engine to a compiled fact set. */
  function Sealed(sha: Value -> string, k: Compiled, c: Candidate): PolicyDecision {
    PolicyDecision(c.decision, c.reason, c.rule, k.session.session, k.intent.tool, k.intent.resource, k.intent.scope,
                   StableHash(sha, ProofPayload(k, c)))
  }

  /** The one effective row, by `EvaluateWithCozoOf`. */
  function EngineAnswer(i: Inputs): Candidate {
    Outcome(Winner(DatalogSignals(i)))
  }

  /** `decide` */
  function Decide(sha: Value -> string, thresholds: Thresholds, ctx: Context): (r: Result<PolicyDecision>) {
    match ReadInputs(ctx, thresholds)
    case Err(e) => Err(e)
    case Ok(i) => Ok(Sealed(sha, CompiledFrom(sha, i, ReadCarried(ctx)), EngineAnswer(i)))
  }

  /** `decide` returns what the Datalog program answers: a decision is executable exactly when the program says so. */
  lemma DecideIsDatalog(sha: Value -> string, thresholds: Thresholds, ctx: Context)
    ensures Decide(sha, thresholds, ctx).Ok? <==> ReadInputs(ctx, thresholds).Ok?
    ensures Decide(sha, thresholds, ctx).Ok? ==>
      var d := Decide(sha, thresholds, ctx).value;
      EvaluateWithCozo(RowsOf(ReadInputs(ctx, thresholds).value)) == Ok(Candidate(d.decision, Precedence(d.rule), d.reason, d.rule))
    ensures Decide(sha, thresholds, ctx).Ok? ==>
      (Executable(Decide(sha, thresholds, ctx).value.decision) <==> Grants(DatalogSignals(ReadInputs(ctx, thresholds).value)))
  {
    hide RowsOf, Winner, SignalsOf, ReadInputs, EffectiveQuery, ProofPayload;
    if ReadInputs(ctx, thresholds).Ok? {
      var i := ReadInputs(ctx, thresholds).value;
      EvaluateWithCozoOf(i);
      ExecutableIffGrants(DatalogSignals(i));
    }
  }
}
