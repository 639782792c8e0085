/**
 * What `run_authorize` (platform/gateway_service.py) hands to the policy: the facts of the graph, the credential
 * binding and the context snapshot; and what an executable answer says about the tables.
 */
module GatewayContext {
  import opened Wrappers
  import opened Text
  import opened Json
  import opened Canonical
  import opened PolicyRows
  import opened PolicyCompile
  import opened PolicyDecide
  import opened GraphFallback
  import opened GatewayKeys

  /** A row of `credential_bindings`. */
  datatype BindingRec = BindingRec(
    credentialRef: string, provider: string, credentialClass: string, ownerTeam: string, tool: string, scope: string,
    resource: string, injectionMode: string)

  /** `find_credential_binding` */
  function FindBinding(rows: seq<BindingRec>, tool: string, scope: string, resource: string): Option<BindingRec> {
    FirstWhere(rows, (b: BindingRec) => b.tool == tool && b.scope == scope && b.resource == resource)
  }

  /** The facts after `facts.update(...)` for the binding. */
  function WithBinding(facts: Facts, binding: Option<BindingRec>): Facts {
    if binding.None? then facts
    else facts + map[
      "credential_required" := Bool(true),
      "credential_class" := Str(binding.value.credentialClass),
      "credential_binding_available" := Bool(true),
      "credential_binding_id" := Str(binding.value.credentialRef),
      "credential_ref" := Str(binding.value.credentialRef),
      "credential_provider" := Str(binding.value.provider),
      "credential_injection_mode" := Str(binding.value.injectionMode),
      "credential_owner_team" := Str(binding.value.ownerTeam),
      "secret_exposed_to_agent" := Bool(false)]
  }

  /** The facts after both updates. */
  function GatewayFacts(facts: Facts, binding: Option<BindingRec>, snapshotId: nat, commit: string): Facts {
    WithBinding(facts, binding) + map[
      "context_snapshot_present" := Bool(true),
      "context_snapshot_id" := Num(snapshotId),
      "dolt_commit" := Str(commit),
      "recipe_index_commit" := Str(commit)]
  }

  function GatewayCtx(p: Picture, session: string, tool: string, resource: string, binding: Option<BindingRec>, snapshotId: nat, commit: string): Context {
    var ctx := ContextOf(p, session, tool, resource);
    ctx.(facts := GatewayFacts(ctx.facts, binding, snapshotId, commit),
         snapshotId := Decimal(snapshotId), doltCommit := commit, recipeIndexCommit := commit)
  }

  /** The tree under the idempotency key. */
  function KeyTree(ctx: Context, scope: Value, grantPresent: Value): Value {
    Obj([
      Field("session_id", Str(ctx.sessionId)),
      Field("tool_id", Str(ctx.toolId)),
      Field("resource_id", Str(ctx.resourceId)),
      Field("scope", scope),
      Field("grant_present", grantPresent),
      Field("context_path", Strings(ctx.contextPath)),
      Field("recipe_index_commit", Str(ctx.recipeIndexCommit))])
  }

  /** `_idempotency_key` */
  function IdempotencyKey(sha: Value -> string, ctx: Context): string {
    StableHash(sha, KeyTree(
      ctx, if "scope" in ctx.facts then ctx.facts["scope"] else Null,
      if "grant_present" in ctx.facts then ctx.facts["grant_present"] else Null))
  }

  // ---- Reading the gateway context ----

  predicate Holds(facts: Facts, key: string, value: Value) {
    key in facts && facts[key] == value
  }

  /** The gateway leaves every other fact of the graph alone. */
  lemma GatewayKeepsFacts(facts: Facts, binding: Option<BindingRec>, snapshotId: nat, commit: string, key: string)
    requires key !in ADDED_KEYS
    ensures key in GatewayFacts(facts, binding, snapshotId, commit) <==> key in facts
    ensures key in facts ==> GatewayFacts(facts, binding, snapshotId, commit)[key] == facts[key]
  {
  }

  lemma SnapshotFact(facts: Facts, binding: Option<BindingRec>, snapshotId: nat, commit: string)
    ensures Holds(GatewayFacts(facts, binding, snapshotId, commit), "context_snapshot_present", Bool(true))
  {
  }

  lemma GraphKeys(p: Picture, session: string, tool: string, resource: string, key: string)
    requires key in FactsOf(p, session, tool, resource)
    ensures key in FACT_KEYS
  {
  }

  lemma TeamFacts(p: Picture, session: string, tool: string, resource: string)
    ensures Holds(FactsOf(p, session, tool, resource), "same_team", Bool(p.res.team == p.s.team))
    ensures Holds(FactsOf(p, session, tool, resource), "session_team", Str(p.s.team))
    ensures Holds(FactsOf(p, session, tool, resource), "resource_team", Str(p.res.team))
    ensures Holds(FactsOf(p, session, tool, resource), "delegation_present", Bool(p.delegated))
  {
  }

  lemma ScopeFacts(p: Picture, session: string, tool: string, resource: string)
    ensures Holds(FactsOf(p, session, tool, resource), "scope", Str(p.ts.scope))
    ensures Holds(FactsOf(p, session, tool, resource), "scope_approval_mode", if p.mode.Some? then Str(p.mode.value.approvalMode) else Null)
    ensures Holds(FactsOf(p, session, tool, resource), "grant_present", Bool(p.grantPresent))
  {
  }

  lemma RecipeFacts(p: Picture, session: string, tool: string, resource: string)
    ensures Holds(FactsOf(p, session, tool, resource), "recipe_predicts_tool", Bool(p.predicts))
    ensures Holds(FactsOf(p, session, tool, resource), "similarity_reified", Bool(if p.similarity.Some? then p.similarity.value.reified else true))
    ensures Holds(FactsOf(p, session, tool, resource), "similarity_score",
                  Num(if p.similarity.Some? then p.similarity.value.score else if p.recipe.Some? then 1000 else 0))
  {
  }

  /** Facts that the policy knows and the graph never has. */
  const JUDGED_KEYS: set<string> := {"schema_valid", "judge_goal_consistent", "judge_resource_consistent", "judge_exfiltration_risk"}

  lemma NoJudgedFacts(p: Picture, session: string, tool: string, resource: string, key: string)
    requires key in JUDGED_KEYS
    ensures key !in FactsOf(p, session, tool, resource)
  {
    hide FactsOf;
    assert key !in FACT_KEYS;
    if key in FactsOf(p, session, tool, resource) {
      GraphKeys(p, session, tool, resource, key);
    }
  }

  /** The facts of the graph that the policy reads, gathered. */
  ghost predicate GraphFacts(facts: Facts, p: Picture) {
    && Holds(facts, "delegation_present", Bool(p.delegated))
    && Holds(facts, "recipe_predicts_tool", Bool(p.predicts))
    && Holds(facts, "grant_present", Bool(p.grantPresent))
    && Holds(facts, "similarity_reified", Bool(if p.similarity.Some? then p.similarity.value.reified else true))
    && Holds(facts, "same_team", Bool(p.res.team == p.s.team))
    && Holds(facts, "session_team", Str(p.s.team))
    && Holds(facts, "resource_team", Str(p.res.team))
    && Holds(facts, "scope", Str(p.ts.scope))
    && Holds(facts, "scope_approval_mode", if p.mode.Some? then Str(p.mode.value.approvalMode) else Null)
    && Holds(facts, "similarity_score", Num(if p.similarity.Some? then p.similarity.value.score else if p.recipe.Some? then 1000 else 0))
    && "schema_valid" !in facts
    && "judge_goal_consistent" !in facts
    && "judge_resource_consistent" !in facts
    && "judge_exfiltration_risk" !in facts
  }

  lemma GraphFactsHold(p: Picture, session: string, tool: string, resource: string)
    ensures GraphFacts(FactsOf(p, session, tool, resource), p)
  {
    hide FactsOf;
    TeamFacts(p, session, tool, resource);
    ScopeFacts(p, session, tool, resource);
    RecipeFacts(p, session, tool, resource);
    forall key | key in JUDGED_KEYS ensures key !in FactsOf(p, session, tool, resource) {
      NoJudgedFacts(p, session, tool, resource, key);
    }
  }

  lemma NotAdded(key: string)
    requires key in GRAPH_KEYS
    ensures key !in ADDED_KEYS
  {
  }

  const GRAPH_KEYS: set<string> := {
    "delegation_present", "recipe_predicts_tool", "grant_present", "similarity_reified", "same_team", "session_team",
    "resource_team", "scope", "scope_approval_mode", "similarity_score",
    "schema_valid", "judge_goal_consistent", "judge_resource_consistent", "judge_exfiltration_risk"}

  lemma GatewayFactsHold(p: Picture, session: string, tool: string, resource: string, binding: Option<BindingRec>, snapshotId: nat, commit: string)
    ensures GraphFacts(GatewayFacts(FactsOf(p, session, tool, resource), binding, snapshotId, commit), p)
  {
    hide FactsOf, GatewayFacts, ADDED_KEYS;
    var facts := FactsOf(p, session, tool, resource);
    GraphFactsHold(p, session, tool, resource);
    forall key | key in GRAPH_KEYS
      ensures key in GatewayFacts(facts, binding, snapshotId, commit) <==> key in facts
      ensures key in facts ==> GatewayFacts(facts, binding, snapshotId, commit)[key] == facts[key]
    {
      NotAdded(key);
      GatewayKeepsFacts(facts, binding, snapshotId, commit, key);
    }
  }

  // ---- What the policy reads ----

  /** The session's team as the compiler reads it: an empty id falls back on the sixth entry of the context path. */
  function ReadTeam(p: Picture, session: string, tool: string, resource: string): string {
    if p.s.team != "" then p.s.team else PathAt(PathOf(p, session, tool, resource), 5, "team_unknown")
  }

  /** The part of the compiled inputs that decides about a gateway question. */
  ghost predicate Reads(i: Inputs, p: Picture, session: string, tool: string, resource: string) {
    && i.schemaValid && i.snapshotPresent
    && i.delegationPresent == p.delegated
    && i.recipePredictsTool == p.predicts
    && i.grantPresent == p.grantPresent
    && i.team == ReadTeam(p, session, tool, resource)
    && i.resourceTeam == (if p.res.team != "" then p.res.team else if p.s.team == "" then i.team else "team_mismatch")
    && i.contextPath == PathOf(p, session, tool, resource)
    && (i.approvalMode == if p.mode.Some? && p.mode.value.approvalMode != "" then Some(p.mode.value.approvalMode) else None)
    && i.score == (if p.similarity.Some? then p.similarity.value.score else if p.recipe.Some? then 1000 else 0)
    && i.reified == (p.similarity.Some? ==> p.similarity.value.reified)
    && (p.ts.scope != "" ==> i.scope == p.ts.scope)
  }

  lemma NoJudges(session: string, tool: string, facts: Facts)
    requires forall key :: key in JUDGE_KEYS ==> key !in facts
    ensures JudgeRows(session, tool, facts, JUDGE_KEYS) == Ok([])
  {
    assert JUDGE_KEYS[2] in JUDGE_KEYS && JUDGE_KEYS[1] in JUDGE_KEYS && JUDGE_KEYS[0] in JUDGE_KEYS;
    assert JUDGE_KEYS[1..][1..][1..] == [];
    assert JudgeRows(session, tool, facts, []) == Ok([]);
    assert JudgeRows(session, tool, facts, JUDGE_KEYS[1..][1..]) == Ok([]);
    assert JudgeRows(session, tool, facts, JUDGE_KEYS[1..]) == Ok([]);
  }

  /** The identifiers that the compiler reads. */
  lemma GatewayIdentity(ctx: Context, p: Picture, session: string, tool: string, resource: string)
    requires ctx.teamId == "" && ctx.resourceTeam == "" && ctx.scope == "" && ctx.contextPath == PathOf(p, session, tool, resource)
    requires GraphFacts(ctx.facts, p)
    ensures var id := ReadIdentity(ctx);
      && id.team == ReadTeam(p, session, tool, resource)
      && id.resourceTeam == (if p.res.team != "" then p.res.team else if p.s.team == "" then id.team else "team_mismatch")
      && (p.ts.scope != "" ==> id.scope == p.ts.scope)
  {
    hide PathOf, PathAt;
  }

  /** The compiler accepts every gateway question, and this is what it reads. */
  lemma GatewayReads(p: Picture, session: string, tool: string, resource: string, binding: Option<BindingRec>, snapshotId: nat, commit: string, th: Thresholds)
    ensures ReadInputs(GatewayCtx(p, session, tool, resource, binding, snapshotId, commit), th).Ok?
    ensures Reads(ReadInputs(GatewayCtx(p, session, tool, resource, binding, snapshotId, commit), th).value, p, session, tool, resource)
  {
    hide FactsOf, GatewayFacts, CredentialClass, CredentialBinding, ViolationKinds, PathOf, JudgeRows, ReadIdentity, ReadTeam;
    var ctx := GatewayCtx(p, session, tool, resource, binding, snapshotId, commit);
    var facts := ctx.facts;
    GatewayFactsHold(p, session, tool, resource, binding, snapshotId, commit);
    SnapshotFact(FactsOf(p, session, tool, resource), binding, snapshotId, commit);
    GatewayIdentity(ctx, p, session, tool, resource);
    NoJudges(ReadIdentity(ctx).session, ReadIdentity(ctx).tool, facts);
  }

  // ---- Changing one fact ----

  lemma {:induction false} FlaggedUnaffected(facts: Facts, key: string, value: Value, flags: seq<(string, string)>)
    requires forall f :: f in flags ==> f.0 != key
    ensures FlaggedViolations(facts[key := value], flags) == FlaggedViolations(facts, flags)
  {
    if flags != [] {
      var k := |flags| - 1;
      assert flags[k] in flags;
      FlaggedUnaffected(facts, key, value, flags[..k]);
    }
  }

  /** A harmless fact that is no violation flag leaves the violations as they are. */
  lemma ViolationsUnaffected(facts: Facts, key: string, value: Value)
    requires Harmless(key) && !IsFlag(key)
    ensures ViolationKinds(facts[key := value]) == ViolationKinds(facts)
  {
    hide ExposesSecret, FlaggedViolations, VIOLATION_FLAGS;
    forall f | f in VIOLATION_FLAGS ensures f.0 != key {
      assert IsFlag(f.0);
    }
    FlaggedUnaffected(facts, key, value, VIOLATION_FLAGS);
    var changed := facts[key := value];
    forall k ensures k in changed && ExposesSecret(k, changed[k]) <==> k in facts && ExposesSecret(k, facts[k]) {
    }
  }

  /** Every read of another key is unaffected. */
  ghost predicate ReadAlikeBut(a: Facts, b: Facts, key: string) {
    && (forall k, d :: k != key ==> TextOr(a, k, d) == TextOr(b, k, d))
    && (forall k, d :: k != key ==> Flag(a, k, d) == Flag(b, k, d))
    && (forall k :: k != key ==> OptionalFlag(a, k) == OptionalFlag(b, k))
    && (forall k :: k != key ==> (k in a <==> k in b) && (k in a ==> a[k] == b[k]))
  }

  lemma ChangeReadsAlike(facts: Facts, key: string, value: Value)
    ensures ReadAlikeBut(facts, facts[key := value], key)
  {
  }

  /** The facts whose change is studied here. */
  const SET_KEYS: set<string> := {"grant_present", "session_team", "same_team", "context_snapshot_id"}

  lemma IdentityUnaffected(ctx: Context, key: string, value: Value)
    requires key == "grant_present" || key == "context_snapshot_id"
    ensures ReadIdentity(ctx.(facts := ctx.facts[key := value])) == ReadIdentity(ctx)
  {
  }

  /** The remaining reads, gathered: none of them is about the grant. */
  ghost predicate OtherReadsAgree(a: Facts, b: Facts) {
    ResourceReadsAgree(a, b) && RecipeReadsAgree(a, b)
  }

  ghost predicate ResourceReadsAgree(a: Facts, b: Facts) {
    && Flag(a, "resource_external", false) == Flag(b, "resource_external", false)
    && Flag(a, "schema_valid", true) == Flag(b, "schema_valid", true)
    && Flag(a, "schema_repairable", false) == Flag(b, "schema_repairable", false)
    && (forall d :: TextOr(a, "tool_risk", d) == TextOr(b, "tool_risk", d))
    && (forall d :: TextOr(a, "resource_sensitivity", d) == TextOr(b, "resource_sensitivity", d))
    && OptionalFlag(a, "break_glass") == OptionalFlag(b, "break_glass")
    && OptionalFlag(a, "external_write_predicted") == OptionalFlag(b, "external_write_predicted")
    && SameFact(a, b, "agent_trust_score")
  }

  ghost predicate RecipeReadsAgree(a: Facts, b: Facts) {
    && SameFact(a, b, "similarity_score")
    && Flag(a, "delegation_present", false) == Flag(b, "delegation_present", false)
    && Flag(a, "recipe_predicts_tool", false) == Flag(b, "recipe_predicts_tool", false)
    && TextOr(a, "scope_approval_mode", "") == TextOr(b, "scope_approval_mode", "")
    && Flag(a, "similarity_reified", true) == Flag(b, "similarity_reified", true)
    && (forall d :: Flag(a, "context_snapshot_present", d) == Flag(b, "context_snapshot_present", d))
  }

  predicate SameFact(a: Facts, b: Facts, key: string) {
    (key in a <==> key in b) && (key in a ==> a[key] == b[key])
  }

  lemma SetKeysAreInnocent(key: string)
    requires key in SET_KEYS
    ensures key in FACT_KEYS || key in ADDED_KEYS
  {
  }

  lemma OtherReadsUnaffected(facts: Facts, key: string, value: Value)
    requires key in SET_KEYS
    ensures OtherReadsAgree(facts, facts[key := value])
  {
    hide TextOr, Flag, OptionalFlag, ResourceReadsAgree, RecipeReadsAgree;
    ResourceReadsUnaffected(facts, key, value);
    RecipeReadsUnaffected(facts, key, value);
  }

  lemma ResourceReadsUnaffected(facts: Facts, key: string, value: Value)
    requires key in SET_KEYS
    ensures ResourceReadsAgree(facts, facts[key := value])
  {
    hide TextOr, Flag, OptionalFlag;
    ChangeReadsAlike(facts, key, value);
  }

  lemma RecipeReadsUnaffected(facts: Facts, key: string, value: Value)
    requires key in SET_KEYS
    ensures RecipeReadsAgree(facts, facts[key := value])
  {
    hide TextOr, Flag, OptionalFlag;
    ChangeReadsAlike(facts, key, value);
  }

  lemma DerivedReadsUnaffected(facts: Facts, key: string, value: Value, session: string, tool: string, scope: string)
    requires key in SET_KEYS
    ensures CredentialClass(tool, facts[key := value]) == CredentialClass(tool, facts)
    ensures CredentialBinding(tool, scope, facts[key := value]) == CredentialBinding(tool, scope, facts)
    ensures JudgeRows(session, tool, facts[key := value], JUDGE_KEYS) == JudgeRows(session, tool, facts, JUDGE_KEYS)
    ensures ViolationKinds(facts[key := value]) == ViolationKinds(facts)
  {
    hide ViolationKinds, ExposesSecret, CredentialClass, CredentialBinding, JudgeRows;
    SetKeysAreInnocent(key);
    KeyIsInnocent(key);
    ViolationsUnaffected(facts, key, value);
    CredentialsUnaffected(facts, key, value, tool, scope);
    JudgesUnaffected(session, tool, facts, key, value);
  }

  lemma SetGrantFlag(facts: Facts)
    ensures Flag(facts["grant_present" := Bool(true)], "grant_present", false)
  {
  }

  /** The grant flag is read in one place only. */
  lemma SettingGrant(ctx: Context, th: Thresholds)
    requires ReadInputs(ctx, th).Ok?
    ensures ReadInputs(ctx.(facts := ctx.facts["grant_present" := Bool(true)]), th)
         == Ok(ReadInputs(ctx, th).value.(grantPresent := true))
  {
    hide ViolationKinds, TextOr, Flag, OptionalFlag, CredentialClass, CredentialBinding, JudgeRows, ReadIdentity, FloatOf;
    var id := ReadIdentity(ctx);
    SetGrantFlag(ctx.facts);
    IdentityUnaffected(ctx, "grant_present", Bool(true));
    OtherReadsUnaffected(ctx.facts, "grant_present", Bool(true));
    DerivedReadsUnaffected(ctx.facts, "grant_present", Bool(true), id.session, id.tool, id.scope);
  }

  lemma CredentialsUnaffected(facts: Facts, key: string, value: Value, tool: string, scope: string)
    requires key in SET_KEYS
    ensures CredentialClass(tool, facts[key := value]) == CredentialClass(tool, facts)
    ensures CredentialBinding(tool, scope, facts[key := value]) == CredentialBinding(tool, scope, facts)
  {
  }

  lemma JudgesUnaffected(session: string, tool: string, facts: Facts, key: string, value: Value)
    requires key in SET_KEYS
    ensures JudgeRows(session, tool, facts[key := value], JUDGE_KEYS) == JudgeRows(session, tool, facts, JUDGE_KEYS)
  {
    forall k | k in JUDGE_KEYS ensures k != key && k + "_confidence" != key {
      assert |k + "_confidence"| > 20;
    }
    JudgesUnaffectedFor(session, tool, facts, key, value, JUDGE_KEYS);
  }

  lemma {:induction false} JudgesUnaffectedFor(session: string, tool: string, facts: Facts, key: string, value: Value, keys: seq<string>)
    requires forall k :: k in keys ==> k != key && k + "_confidence" != key
    ensures JudgeRows(session, tool, facts[key := value], keys) == JudgeRows(session, tool, facts, keys)
  {
    if keys != [] {
      assert keys[0] in keys;
      forall k | k in keys[1..] ensures k in keys {
      }
      JudgesUnaffectedFor(session, tool, facts, key, value, keys[1..]);
    }
  }
}
