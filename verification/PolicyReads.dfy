/**
 * What a dictionary of facts has to say for `decide` (platform/cozo_policy.py) to let a call run: the keys that are
 * read, what their absence means, and which keys tell of a violation.
 */
module PolicyReads {
  import opened Wrappers
  import opened Text
  import opened Json
  import opened PyText
  import opened PolicyTable
  import opened PolicyRows
  import opened PolicyTheorems
  import opened PolicyCompile
  import opened PolicyDecide
  import opened PolicyFlat

  // ---- Reading ----

  /** The key is there, and its value counts as true. */
  predicate Says(facts: Facts, key: string) {
    key in facts && Truthy(facts[key])
  }

  /** The context's text, else the text of the fact, else the default. */
  function Known(text: string, facts: Facts, key: string, default: string): string {
    if text != "" then text else if Says(facts, key) then TextOf(facts[key]) else default
  }

  /** A number, or a truth value as 1 or 0; scores are thousandths. */
  function Score(v: Value): Option<int> {
    match v
    case Num(n) => Some(n)
    case Bool(true) => Some(1000)
    case Bool(false) => Some(0)
    case _ => None
  }

  /** What counts as false in Python: nothing, zero, and whatever is empty. */
  lemma TruthyIff(v: Value)
    ensures Truthy(v) <==> v != Null && v != Bool(false) && v != Num(0) && v != Str("") && v != Arr([]) && v != Obj([])
  {
  }

  // ---- Violations ----

  /** The key reads like a secret, unless it is one of the six that describe a credential. */
  ghost predicate Tells(key: string) {
    && (exists m :: m in {"password", "secret", "token", "private_key", "client_secret", "bearer"} && Contains(Lower(key), m))
    && key !in {"credential_required", "credential_ref_status", "credential_provider", "credential_injection_mode",
                "credential_owner_team", "secret_exposed_to_agent"}
  }

  lemma {:induction false} FlagRaises(facts: Facts, flags: seq<(string, string)>, kind: string)
    ensures kind in FlaggedViolations(facts, flags) <==> exists n :: 0 <= n < |flags| && flags[n].1 == kind && Says(facts, flags[n].0)
  {
    hide Truthy;
    if flags != [] {
      FlagRaises(facts, flags[..|flags| - 1], kind);
    }
  }

  /** The kinds that the flags raise. */
  lemma FlagsRaise(facts: Facts)
    ensures var kinds := FlaggedViolations(facts, VIOLATION_FLAGS);
      && ("direct_secret_read" in kinds <==> Says(facts, "attempted_direct_secret_read") || Says(facts, "direct_secret_read"))
      && ("secret_exposure" in kinds <==> Says(facts, "writes_decrypted_credential") || Says(facts, "hook_would_expose_secret"))
      && ("bulk_export" in kinds <==> Says(facts, "bulk_export"))
      && ("goal_expansion" in kinds <==> Says(facts, "goal_expansion"))
  {
    hide Says, FlaggedViolations;
    FlagRaises(facts, VIOLATION_FLAGS, "direct_secret_read");
    FlagRaises(facts, VIOLATION_FLAGS, "secret_exposure");
    FlagRaises(facts, VIOLATION_FLAGS, "bulk_export");
    FlagRaises(facts, VIOLATION_FLAGS, "goal_expansion");
    assert Says(facts, VIOLATION_FLAGS[0].0) == Says(facts, "attempted_direct_secret_read");
    assert Says(facts, VIOLATION_FLAGS[1].0) == Says(facts, "direct_secret_read");
    assert Says(facts, VIOLATION_FLAGS[2].0) == Says(facts, "writes_decrypted_credential");
    assert Says(facts, VIOLATION_FLAGS[3].0) == Says(facts, "hook_would_expose_secret");
    assert Says(facts, VIOLATION_FLAGS[4].0) == Says(facts, "bulk_export");
    assert Says(facts, VIOLATION_FLAGS[5].0) == Says(facts, "goal_expansion");
  }

  lemma TellsIff(key: string, v: Value)
    ensures ExposesSecret(key, v) <==> Tells(key) && Truthy(v)
  {
    hide Contains, Truthy;
    assert forall m :: m in POLICY_SECRET_MARKERS <==> m in {"password", "secret", "token", "private_key", "client_secret", "bearer"};
  }

  /** Exactly which facts raise which violation. */
  lemma ViolationsExactly(facts: Facts)
    ensures var kinds := ViolationKinds(facts);
      && ("direct_secret_read" in kinds <==> Says(facts, "attempted_direct_secret_read") || Says(facts, "direct_secret_read"))
      && ("bulk_export" in kinds <==> Says(facts, "bulk_export"))
      && ("goal_expansion" in kinds <==> Says(facts, "goal_expansion"))
      && ("secret_exposure" in kinds
          <==> Says(facts, "writes_decrypted_credential") || Says(facts, "hook_would_expose_secret")
               || exists key :: Tells(key) && Says(facts, key))
  {
    hide Tells, ExposesSecret, FlaggedViolations, Truthy;
    FlagsRaise(facts);
    forall key | key in facts ensures ExposesSecret(key, facts[key]) <==> Tells(key) && Says(facts, key) {
      TellsIff(key, facts[key]);
    }
    if key :| Tells(key) && Says(facts, key) {
      assert key in facts && ExposesSecret(key, facts[key]);
    }
  }

  // ---- Exactly when a call may run ----

  /** The recipe of the context, or the second entry of its path. */
  function RecipeOf(ctx: Context): string {
    if ctx.recipeId != "" then ctx.recipeId else if |ctx.contextPath| > 1 then ctx.contextPath[1] else "recipe_unknown"
  }

  function ScopeOf(ctx: Context): string {
    Known(ctx.scope, ctx.facts, "scope", if |ctx.contextPath| > 3 then ctx.contextPath[3] else "scope:unknown")
  }

  function TeamOf(ctx: Context): string {
    Known(ctx.teamId, ctx.facts, "session_team", if |ctx.contextPath| > 5 then ctx.contextPath[5] else "team_unknown")
  }

  /** A resource without a team belongs to the session's team exactly if a fact says so. */
  function OwnerOf(ctx: Context): string {
    Known(ctx.resourceTeam, ctx.facts, "resource_team", if Says(ctx.facts, "same_team") then TeamOf(ctx) else "team_mismatch")
  }

  function TrustOf(ctx: Context): Option<int> {
    if "agent_trust_score" in ctx.facts then Score(ctx.facts["agent_trust_score"]) else None
  }

  /** Of the tools that the facts say nothing about, one is harmless and one is dangerous. */
  function RiskOf(ctx: Context): string {
    var tool := Known(ctx.toolId, ctx.facts, "tool_id", "tool.unknown");
    Known("", ctx.facts, "tool_risk",
          if tool == "linear.search_issues" then "low" else if tool == "slack.post_message" then "high" else "medium")
  }

  predicate WritesOutsideIn(ctx: Context) {
    Says(ctx.facts, "resource_external") && Known(ctx.accessKind, ctx.facts, "access_kind", "read") == "write"
  }

  /** The hit is reified unless a fact denies it, and scores at least 0.82; a recipe without a score counts as 1.0. */
  predicate ForeseenIn(ctx: Context) {
    && Says(ctx.facts, "recipe_predicts_tool") && RecipeOf(ctx) != "recipe_unknown"
    && ("similarity_reified" in ctx.facts ==> Says(ctx.facts, "similarity_reified"))
    && ("similarity_score" in ctx.facts ==>
          Score(ctx.facts["similarity_score"]).Some? && Score(ctx.facts["similarity_score"]).value >= 820)
  }

  ghost predicate InnocentIn(ctx: Context) {
    && !Says(ctx.facts, "attempted_direct_secret_read") && !Says(ctx.facts, "direct_secret_read")
    && !Says(ctx.facts, "writes_decrypted_credential") && !Says(ctx.facts, "hook_would_expose_secret")
    && !Says(ctx.facts, "bulk_export") && !Says(ctx.facts, "goal_expansion")
    && forall key :: Tells(key) ==> !Says(ctx.facts, key)
  }

  predicate CredentialKeptIn(ctx: Context) {
    var f := ctx.facts;
    (if "credential_required" in f then Says(f, "credential_required") else Known("", f, "credential_class", "") != "") ==>
      && Says(f, "credential_binding_available") && Known("", f, "credential_ref_status", "active") == "active"
      && !Says(f, "secret_exposed_to_agent")
  }

  predicate AutomaticIn(ctx: Context) {
    var f := ctx.facts;
    && Known("", f, "scope_approval_mode", "") == "auto_approve" && RiskOf(ctx) in {"low", "medium"}
    && !Says(f, "resource_external") && Known("", f, "resource_sensitivity", "normal") in {"low", "normal"}
    && CredentialKeptIn(ctx)
  }

  /** Everything that has to hold. */
  ghost predicate RunsIn(ctx: Context, th: Thresholds) {
    var f := ctx.facts;
    && ("schema_valid" in f ==> Says(f, "schema_valid")) && Says(f, "delegation_present") && TeamOf(ctx) == OwnerOf(ctx)
    && ForeseenIn(ctx) && InnocentIn(ctx)
    && (TrustOf(ctx).Some? ==> TrustOf(ctx).value >= th.minimum)
    && (ScopeOf(ctx) in {"admin", "linear:admin", "slack:admin", "scopememory:admin"} ==> Says(f, "break_glass"))
    && (WritesOutsideIn(ctx) ==>
          Says(f, "external_write_predicted") && (TrustOf(ctx).Some? ==> TrustOf(ctx).value >= th.sensitive))
    && (ctx.contextPath == [] ==> !Says(f, "context_snapshot_present") && !Says(f, "grant_present"))
    && (Says(f, "grant_present") || AutomaticIn(ctx))
  }

  // ---- The compiled inputs ----

  lemma IdentityRead(ctx: Context, th: Thresholds, i: Inputs)
    requires ReadInputs(ctx, th) == Ok(i)
    ensures i.recipe == RecipeOf(ctx) && i.scope == ScopeOf(ctx) && i.team == TeamOf(ctx) && i.resourceTeam == OwnerOf(ctx)
    ensures i.risk == RiskOf(ctx) && (i.external && i.accessKind == "write" <==> WritesOutsideIn(ctx))
    ensures i.external == Says(ctx.facts, "resource_external") && i.contextPath == ctx.contextPath
    ensures i.tool == Known(ctx.toolId, ctx.facts, "tool_id", "tool.unknown")
  {
    hide Truthy, TextOf, JudgeRows, ViolationKinds, CredentialClass, CredentialBinding;
  }

  lemma CallRead(ctx: Context, th: Thresholds, i: Inputs)
    requires ReadInputs(ctx, th) == Ok(i)
    ensures var f := ctx.facts;
      && (i.schemaValid <==> ("schema_valid" in f ==> Says(f, "schema_valid")))
      && (i.schemaRepairable <==> Says(f, "schema_repairable"))
      && (i.delegationPresent <==> Says(f, "delegation_present")) && (i.grantPresent <==> Says(f, "grant_present"))
      && (ctx.contextPath == [] ==> (i.snapshotPresent <==> Says(f, "context_snapshot_present")))
      && (i.breakGlass == Some(true) <==> Says(f, "break_glass"))
      && (i.externalWritePredicted == Some(true) <==> Says(f, "external_write_predicted"))
      && i.trust == TrustOf(ctx) && i.thresholds == th && i.violations == ViolationKinds(f)
  {
    hide Truthy, TextOf, JudgeRows, ViolationKinds, CredentialClass, CredentialBinding, ReadIdentity, DefaultRisk;
  }

  lemma RecipeRead(ctx: Context, th: Thresholds, i: Inputs)
    requires ReadInputs(ctx, th) == Ok(i)
    ensures Foreseen(i) <==> ForeseenIn(ctx)
  {
    hide Truthy, TextOf, JudgeRows, ViolationKinds, CredentialClass, CredentialBinding, DefaultRisk;
  }

  lemma ApprovalRead(ctx: Context, th: Thresholds, i: Inputs)
    requires ReadInputs(ctx, th) == Ok(i)
    ensures i.approvalMode == var mode := Known("", ctx.facts, "scope_approval_mode", ""); if mode != "" then Some(mode) else None
    ensures i.sensitivity == Known("", ctx.facts, "resource_sensitivity", if i.external then "high" else "normal")
    ensures i.credentialClass == CredentialClass(i.tool, ctx.facts) && i.binding == CredentialBinding(i.tool, i.scope, ctx.facts)
  {
    hide Truthy, TextOf, JudgeRows, ViolationKinds, CredentialClass, CredentialBinding, ReadIdentity, DefaultRisk;
  }

  lemma CredentialRead(ctx: Context, i: Inputs)
    requires i.credentialClass == CredentialClass(i.tool, ctx.facts) && i.binding == CredentialBinding(i.tool, i.scope, ctx.facts)
    ensures CredentialKept(i) <==> CredentialKeptIn(ctx)
  {
    hide Truthy, TextOf;
  }

  /** The binding that the policy sees, and what stands in for whatever the facts leave open. */
  lemma BindingRead(tool: string, scope: string, facts: Facts)
    ensures CredentialBinding(tool, scope, facts).Some? <==> Says(facts, "credential_binding_available")
    ensures var b := CredentialBinding(tool, scope, facts); b.Some? ==>
      && b.value.tool == tool && b.value.scope == scope
      && b.value.binding == Known("", facts, "credential_binding_id", "binding:" + tool + ":" + scope)
      && b.value.credentialRef == Known("", facts, "credential_ref", "credref:" + tool + ":" + scope)
      && b.value.provider == Known("", facts, "credential_provider", "1password")
      && b.value.refStatus == Known("", facts, "credential_ref_status", "active")
      && b.value.injectionMode == Known("", facts, "credential_injection_mode", "gateway_header")
      && b.value.ownerTeam == Known("", facts, "credential_owner_team", "team_sales_ops")
      && b.value.exposesSecret == Says(facts, "secret_exposed_to_agent")
  {
    hide Truthy, TextOf;
  }

  /** A credential is required if the facts say so, and else if they name its class. */
  lemma RequirementRead(tool: string, facts: Facts)
    ensures var kind := Known("", facts, "credential_class", "");
      CredentialClass(tool, facts)
      == if "credential_required" in facts && !Says(facts, "credential_required") then None
         else if kind != "" then Some(kind)
         else if Says(facts, "credential_required") then Some(tool + ".credential") else None
  {
    hide Truthy, TextOf;
  }

  lemma InnocentRead(ctx: Context)
    ensures InnocentIn(ctx)
       <==> forall v :: v in {"direct_secret_read", "secret_exposure", "bulk_export", "goal_expansion"} ==> v !in ViolationKinds(ctx.facts)
  {
    hide Tells, Says, ViolationKinds;
    ViolationsExactly(ctx.facts);
  }

  /** The compiled inputs let the call run exactly when the dictionary does. */
  lemma InputsRunExactlyWhen(ctx: Context, th: Thresholds, i: Inputs)
    requires ReadInputs(ctx, th) == Ok(i)
    ensures Executes(i) <==> RunsIn(ctx, th)
  {
    hide ReadInputs, Foreseen, ForeseenIn, CredentialKept, CredentialKeptIn, Says, Known, RiskOf, ScopeOf, TeamOf, OwnerOf,
         TrustOf, Executes, ViolationKinds, InnocentIn;
    ExecutesExactlyWhen(i);
    IdentityRead(ctx, th, i);
    CallRead(ctx, th, i);
    RecipeRead(ctx, th, i);
    ApprovalRead(ctx, th, i);
    CredentialRead(ctx, i);
    InnocentRead(ctx);
  }

  /** `decide` lets a call run exactly when the dictionary says all of this. */
  lemma DecideRunsExactlyWhen(sha: Value -> string, th: Thresholds, ctx: Context, d: PolicyDecision)
    requires Decide(sha, th, ctx) == Ok(d)
    ensures Executable(d.decision) <==> RunsIn(ctx, th)
  {
    hide ReadInputs, RunsIn, Executes, Grants, DatalogSignals, EvaluateWithCozo, CompiledFrom;
    var i := ReadInputs(ctx, th).value;
    DecideIsDatalog(sha, th, ctx);
    ExecutesIffGrants(i);
    InputsRunExactlyWhen(ctx, th, i);
  }

  // ---- What the answer names ----

  /** The names that the sealed answer carries, and what of the session it was compiled for. */
  lemma AnswerNames(sha: Value -> string, th: Thresholds, ctx: Context, d: PolicyDecision, k: Compiled)
    requires Decide(sha, th, ctx) == Ok(d) && Compile(sha, th, ctx) == Ok(k)
    ensures d.sessionId == k.session.session == Known(ctx.sessionId, ctx.facts, "session_id", "sess_unknown")
    ensures d.toolId == k.intent.tool == Known(ctx.toolId, ctx.facts, "tool_id", "tool.unknown")
    ensures d.resourceId == k.intent.resource == Known(ctx.resourceId, ctx.facts, "resource_id", "resource:unknown")
    ensures d.requiredScope == k.intent.scope == ScopeOf(ctx)
    ensures k.session.user == Known(ctx.userId, ctx.facts, "user_id", if |ctx.contextPath| > 6 then ctx.contextPath[6] else "user_unknown")
    ensures k.session.agent == Known(ctx.agentId, ctx.facts, "agent_id", if |ctx.contextPath| > 7 then ctx.contextPath[7] else "agent_unknown")
    ensures k.session.goalClass == Known(ctx.goalClass, ctx.facts, "goal_class", "sales_renewal_prep")
    ensures k.intent.accessKind == Known(ctx.accessKind, ctx.facts, "access_kind", "read")
  {
    hide Truthy, TextOf, JudgeRows, ViolationKinds, CredentialClass, CredentialBinding, ReadCarried, ProofPayload, RowsOf,
         FactStrings, RowsJson, EngineAnswer, FactSetTree;
  }

  /** What is carried along with the rows: hashes, keys and commits, and their defaults. */
  lemma CarriedRead(sha: Value -> string, th: Thresholds, ctx: Context, k: Compiled)
    requires Compile(sha, th, ctx) == Ok(k)
    ensures k.session.goalHash == Known("", ctx.facts, "goal_hash", "")
    ensures k.session.agentHost == Known("", ctx.facts, "agent_host", "scopememory-demo")
    ensures k.intent.idempotencyKey == Known("", ctx.facts, "idempotency_key", "")
    ensures k.intent.signedGoalHash == Known("", ctx.facts, "signed_goal_hash", k.session.goalHash)
    ensures k.snapshotId == Known(ctx.snapshotId, ctx.facts, "context_snapshot_id", "")
    ensures k.doltCommit == Known(ctx.doltCommit, ctx.facts, "dolt_commit", "demo-fixture")
    ensures k.recipeIndexCommit == Known(ctx.recipeIndexCommit, ctx.facts, "recipe_index_commit", "demo-fixture")
    ensures k.contextPath == ctx.contextPath
  {
    hide Truthy, TextOf, JudgeRows, ViolationKinds, CredentialClass, CredentialBinding, ReadIdentity, RowsOf, FactStrings, RowsJson,
         FactSetTree, DefaultRisk;
  }

  /** `decide` raises exactly when a score is no number, or a judge's confidence is none. */
  lemma DecideRaisesIff(sha: Value -> string, th: Thresholds, ctx: Context)
    ensures Decide(sha, th, ctx).Err? <==>
      || ("similarity_score" in ctx.facts && Score(ctx.facts["similarity_score"]).None?)
      || Unreadable(ctx.facts, "judge_goal_consistent") || Unreadable(ctx.facts, "judge_resource_consistent")
      || Unreadable(ctx.facts, "judge_exfiltration_risk")
  {
    hide Truthy, TextOf, ViolationKinds, CredentialClass, CredentialBinding, ReadCarried, ReadIdentity, CompiledFrom, Sealed,
         EngineAnswer, JudgeRows, Unreadable;
    var id := ReadIdentity(ctx);
    JudgesRaiseIff(id.session, id.tool, ctx.facts);
  }

  /** A judge has spoken, and its confidence is no number. */
  predicate Unreadable(facts: Facts, judge: string) {
    judge in facts && judge + "_confidence" in facts && Score(facts[judge + "_confidence"]).None?
  }

  lemma {:induction false} SomeJudgeRaises(session: string, tool: string, facts: Facts, keys: seq<string>)
    ensures JudgeRows(session, tool, facts, keys).Err? <==> exists n :: 0 <= n < |keys| && Unreadable(facts, keys[n])
  {
    hide Truthy;
    if keys != [] {
      SomeJudgeRaises(session, tool, facts, keys[1..]);
      assert forall n :: 1 <= n < |keys| ==> keys[n] == keys[1..][n - 1];
    }
  }

  lemma JudgesRaiseIff(session: string, tool: string, facts: Facts)
    ensures JudgeRows(session, tool, facts, JUDGE_KEYS).Err?
       <==> Unreadable(facts, "judge_goal_consistent") || Unreadable(facts, "judge_resource_consistent")
            || Unreadable(facts, "judge_exfiltration_risk")
  {
    hide Unreadable, JudgeRows;
    SomeJudgeRaises(session, tool, facts, JUDGE_KEYS);
    assert Unreadable(facts, JUDGE_KEYS[0]) == Unreadable(facts, "judge_goal_consistent");
    assert Unreadable(facts, JUDGE_KEYS[1]) == Unreadable(facts, "judge_resource_consistent");
    assert Unreadable(facts, JUDGE_KEYS[2]) == Unreadable(facts, "judge_exfiltration_risk");
  }
}
