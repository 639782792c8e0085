/**
 * `compile_policy_facts` and `decide` on the dictionary as Python holds it, a list of items in insertion order
 * (platform/cozo_policy.py). `PolicyCompile` and `PolicyDecide` say what they compute on an unordered one.
 */
module PolicyOrdered {
  import opened Wrappers
  import opened Json
  import opened PyText
  import opened PolicyRows
  import opened PolicyCompile
  import opened PolicyDecide

  // ---- Reads ----

  function TextIn(items: seq<Field>, key: string, default: string): string {
    var entry := Get(items, key);
    if entry.Some? && Truthy(entry.value) then TextOf(entry.value) else default
  }

  function PickIn(fromContext: string, items: seq<Field>, key: string, default: string): string {
    if fromContext != "" then fromContext else TextIn(items, key, default)
  }

  function FlagIn(items: seq<Field>, key: string, default: bool): bool {
    var entry := Get(items, key);
    if entry.Some? then Truthy(entry.value) else default
  }

  function OptionalFlagIn(items: seq<Field>, key: string): Option<bool> {
    var entry := Get(items, key);
    if entry.Some? then Some(Truthy(entry.value)) else None
  }

  // ---- The parts of the inputs ----

  function CredentialClassIn(tool: string, items: seq<Field>): Option<string> {
    var kind := TextIn(items, "credential_class", "");
    if FlagIn(items, "credential_required", kind != "") then Some(if kind != "" then kind else tool + ".credential") else None
  }

  function CredentialBindingIn(tool: string, scope: string, items: seq<Field>): Option<BindingRow> {
    if !FlagIn(items, "credential_binding_available", false) then None
    else Some(BindingRow(
      TextIn(items, "credential_binding_id", "binding:" + tool + ":" + scope), tool, scope,
      TextIn(items, "credential_ref", "credref:" + tool + ":" + scope),
      TextIn(items, "credential_provider", "1password"),
      TextIn(items, "credential_ref_status", "active"),
      TextIn(items, "credential_injection_mode", "gateway_header"),
      TextIn(items, "credential_owner_team", "team_sales_ops"),
      FlagIn(items, "secret_exposed_to_agent", false)))
  }

  function JudgeRowsIn(session: string, tool: string, items: seq<Field>, keys: seq<string>): Result<seq<JudgeRow>> {
    if keys == [] then Ok([])
    else match JudgeRowsIn(session, tool, items, keys[1..])
      case Err(e) => Err(e)
      case Ok(rest) =>
        var fact, confidence := Get(items, keys[0]), Get(items, keys[0] + "_confidence");
        if fact.None? then Ok(rest)
        else
          var number := if confidence.None? then Some(0) else FloatOf(confidence.value);
          if number.None? then Err("could not convert confidence to float")
          else Ok([JudgeRow(session, tool, keys[0], Truthy(fact.value), number.value)] + rest)
  }

  function FlaggedIn(items: seq<Field>, flags: seq<(string, string)>): seq<string> {
    if flags == [] then []
    else
      var k := |flags| - 1;
      var before := FlaggedIn(items, flags[..k]);
      if FlagIn(items, flags[k].0, false) then before + [flags[k].1] else before
  }

  /** The item at which the loop over the facts breaks off: the first telling one. */
  function FirstTelling(items: seq<Field>): (r: Option<Field>)
    ensures r.Some? <==> exists i :: 0 <= i < |items| && ExposesSecret(items[i].key, items[i].value)
  {
    hide ExposesSecret;
    if items == [] then None
    else if ExposesSecret(items[0].key, items[0].value) then Some(items[0])
    else
      assert forall i :: 1 <= i < |items| ==> items[i] == items[1..][i - 1];
      FirstTelling(items[1..])
  }

  function ViolationKindsIn(items: seq<Field>): seq<string> {
    FlaggedIn(items, VIOLATION_FLAGS) + (if FirstTelling(items).Some? then ["secret_exposure"] else [])
  }

  function ResourceTeamIn(ctx: Context, items: seq<Field>, team: string): string {
    PickIn(ctx.resourceTeam, items, "resource_team", if FlagIn(items, "same_team", false) then team else "team_mismatch")
  }

  function IdentityIn(ctx: Context, items: seq<Field>): Identity {
    var path := ctx.contextPath;
    var team := PickIn(ctx.teamId, items, "session_team", PathAt(path, 5, "team_unknown"));
    Identity(
      session := PickIn(ctx.sessionId, items, "session_id", "sess_unknown"),
      user := PickIn(ctx.userId, items, "user_id", PathAt(path, 6, "user_unknown")),
      team := team,
      agent := PickIn(ctx.agentId, items, "agent_id", PathAt(path, 7, "agent_unknown")),
      goalClass := PickIn(ctx.goalClass, items, "goal_class", "sales_renewal_prep"),
      tool := PickIn(ctx.toolId, items, "tool_id", "tool.unknown"),
      resource := PickIn(ctx.resourceId, items, "resource_id", "resource:unknown"),
      recipe := if ctx.recipeId != "" then ctx.recipeId else PathAt(path, 1, "recipe_unknown"),
      scope := PickIn(ctx.scope, items, "scope", PathAt(path, 3, "scope:unknown")),
      resourceTeam := ResourceTeamIn(ctx, items, team),
      accessKind := PickIn(ctx.accessKind, items, "access_kind", "read"))
  }

  /** What the compiler reads from the items; `ctx.facts` plays no part. */
  function InputsIn(ctx: Context, items: seq<Field>, thresholds: Thresholds): (r: Result<Inputs>) {
    hide TextIn, FlagIn, OptionalFlagIn, CredentialClassIn, CredentialBindingIn, JudgeRowsIn, ViolationKindsIn, IdentityIn;
    var id := IdentityIn(ctx, items);
    var external := FlagIn(items, "resource_external", false);
    var number, trust := Get(items, "similarity_score"), Get(items, "agent_trust_score");
    var score := if number.Some? then FloatOf(number.value) else Some(if id.recipe != "recipe_unknown" then 1000 else 0);
    var judges := JudgeRowsIn(id.session, id.tool, items, JUDGE_KEYS);
    if score.None? then Err("could not convert similarity_score to float")
    else if judges.Err? then Err(judges.error)
    else Ok(Inputs(
      session := id.session, user := id.user, team := id.team, agent := id.agent, goalClass := id.goalClass,
      tool := id.tool, resource := id.resource, recipe := id.recipe, scope := id.scope, resourceTeam := id.resourceTeam,
      schemaValid := FlagIn(items, "schema_valid", true),
      schemaRepairable := FlagIn(items, "schema_repairable", false),
      accessKind := id.accessKind,
      risk := TextIn(items, "tool_risk", DefaultRisk(id.tool)),
      external := external,
      sensitivity := TextIn(items, "resource_sensitivity", if external then "high" else "normal"),
      grantPresent := FlagIn(items, "grant_present", false),
      delegationPresent := FlagIn(items, "delegation_present", false),
      recipePredictsTool := FlagIn(items, "recipe_predicts_tool", false),
      approvalMode := if TextIn(items, "scope_approval_mode", "") != "" then Some(TextIn(items, "scope_approval_mode", "")) else None,
      reified := FlagIn(items, "similarity_reified", true),
      score := score.value,
      contextPath := ctx.contextPath,
      credentialClass := CredentialClassIn(id.tool, items),
      binding := CredentialBindingIn(id.tool, id.scope, items),
      judges := judges.value,
      violations := ViolationKindsIn(items),
      snapshotPresent := FlagIn(items, "context_snapshot_present", ctx.contextPath != []),
      breakGlass := OptionalFlagIn(items, "break_glass"),
      externalWritePredicted := OptionalFlagIn(items, "external_write_predicted"),
      trust := if trust.Some? then FloatOf(trust.value) else None,
      thresholds := thresholds))
  }

  function CarriedIn(ctx: Context, items: seq<Field>): Carried {
    var goalHash := TextIn(items, "goal_hash", "");
    Carried(
      goalHash := goalHash,
      agentHost := TextIn(items, "agent_host", "scopememory-demo"),
      idempotencyKey := TextIn(items, "idempotency_key", ""),
      signedGoalHash := TextIn(items, "signed_goal_hash", goalHash),
      snapshotId := PickIn(ctx.snapshotId, items, "context_snapshot_id", ""),
      doltCommit := PickIn(ctx.doltCommit, items, "dolt_commit", "demo-fixture"),
      recipeIndexCommit := PickIn(ctx.recipeIndexCommit, items, "recipe_index_commit", "demo-fixture"))
  }

  /** `compile_policy_facts` on ordered facts: contracts, rows, fact strings, hash and commits. */
  function CompileItems(sha: Value -> string, thresholds: Thresholds, ctx: Context, items: seq<Field>): (r: Result<Compiled>) {
    hide InputsIn, CompiledFrom, CarriedIn;
    match InputsIn(ctx, items, thresholds)
    case Err(e) => Err(e)
    case Ok(i) => Ok(CompiledFrom(sha, i, CarriedIn(ctx, items)))
  }

  /** `decide` on ordered facts. */
  function DecideItems(sha: Value -> string, thresholds: Thresholds, ctx: Context, items: seq<Field>): (r: Result<PolicyDecision>) {
    hide InputsIn, CompiledFrom, CarriedIn, Sealed, EngineAnswer;
    match InputsIn(ctx, items, thresholds)
    case Err(e) => Err(e)
    case Ok(i) => Ok(Sealed(sha, CompiledFrom(sha, i, CarriedIn(ctx, items)), EngineAnswer(i)))
  }

  // ---- Items are read like the dictionary they are ----

  /** Every read of the items is the read of the map. */
  ghost predicate ReadsAlike(items: seq<Field>, facts: Facts) {
    && (forall key, d :: TextIn(items, key, d) == TextOr(facts, key, d))
    && (forall key, d :: FlagIn(items, key, d) == Flag(facts, key, d))
    && (forall key :: OptionalFlagIn(items, key) == OptionalFlag(facts, key))
    && (forall key :: Get(items, key) == if key in facts then Some(facts[key]) else None)
  }

  lemma ItemsReadAlike(items: seq<Field>)
    ensures ReadsAlike(items, AsMap(items))
  {
    hide Truthy, TextOf, AsMap;
  }

  lemma TextAlike(items: seq<Field>, key: string, d: string)
    ensures TextIn(items, key, d) == TextOr(AsMap(items), key, d)
  {
    hide AsMap;
  }

  lemma FlagAlike(items: seq<Field>, key: string, d: bool)
    ensures FlagIn(items, key, d) == Flag(AsMap(items), key, d)
  {
    hide AsMap;
  }

  lemma EntryAlike(items: seq<Field>, key: string)
    ensures OptionalFlagIn(items, key) == OptionalFlag(AsMap(items), key)
    ensures Get(items, key) == if key in AsMap(items) then Some(AsMap(items)[key]) else None
  {
    hide AsMap;
  }

  lemma IdentityAlike(ctx: Context, items: seq<Field>)
    ensures IdentityIn(ctx, items) == ReadIdentity(ctx.(facts := AsMap(items)))
  {
    hide TextIn, TextOr, FlagIn, Flag, OptionalFlag, OptionalFlagIn, AsMap;
    ItemsReadAlike(items);
  }

  lemma ClassAlike(tool: string, items: seq<Field>)
    ensures CredentialClassIn(tool, items) == CredentialClass(tool, AsMap(items))
  {
    hide TextIn, TextOr, FlagIn, Flag, AsMap;
    TextAlike(items, "credential_class", "");
    FlagAlike(items, "credential_required", TextIn(items, "credential_class", "") != "");
  }

  lemma BindingAlike(tool: string, scope: string, items: seq<Field>)
    ensures CredentialBindingIn(tool, scope, items) == CredentialBinding(tool, scope, AsMap(items))
  {
    hide TextIn, TextOr, FlagIn, Flag, AsMap;
    FlagAlike(items, "credential_binding_available", false);
    TextAlike(items, "credential_binding_id", "binding:" + tool + ":" + scope);
    TextAlike(items, "credential_ref", "credref:" + tool + ":" + scope);
    TextAlike(items, "credential_provider", "1password");
    TextAlike(items, "credential_ref_status", "active");
    TextAlike(items, "credential_injection_mode", "gateway_header");
    TextAlike(items, "credential_owner_team", "team_sales_ops");
    FlagAlike(items, "secret_exposed_to_agent", false);
  }

  lemma {:induction false} JudgesAlike(session: string, tool: string, items: seq<Field>, keys: seq<string>)
    ensures JudgeRowsIn(session, tool, items, keys) == JudgeRows(session, tool, AsMap(items), keys)
  {
    hide AsMap, Truthy, FloatOf;
    ItemsReadAlike(items);
    if keys != [] {
      JudgesAlike(session, tool, items, keys[1..]);
    }
  }

  lemma {:induction false} FlaggedAlike(items: seq<Field>, flags: seq<(string, string)>)
    ensures FlaggedIn(items, flags) == FlaggedViolations(AsMap(items), flags)
  {
    hide AsMap, Flag, FlagIn;
    ItemsReadAlike(items);
    if flags != [] {
      FlaggedAlike(items, flags[..|flags| - 1]);
    }
  }

  /** Wherever the loop breaks off, it breaks off exactly when the dictionary holds a telling entry. */
  lemma ViolationsAlike(items: seq<Field>)
    requires DistinctKeys(items)
    ensures ViolationKindsIn(items) == ViolationKinds(AsMap(items))
  {
    hide ExposesSecret, FlaggedIn, FlaggedViolations;
    FlaggedAlike(items, VIOLATION_FLAGS);
    AsMapIsGet(items);
    var facts := AsMap(items);
    forall key | key in facts && ExposesSecret(key, facts[key])
      ensures exists i :: 0 <= i < |items| && ExposesSecret(items[i].key, items[i].value)
    {
      var i :| 0 <= i < |items| && items[i].key == key;
      assert facts[items[i].key] == items[i].value;
    }
  }

  /** The flags and texts of the call are read alike. */
  ghost predicate CallAlike(ctx: Context, items: seq<Field>, facts: Facts) {
    hide TextIn, TextOr, FlagIn, Flag;
    && FlagIn(items, "resource_external", false) == Flag(facts, "resource_external", false)
    && FlagIn(items, "schema_valid", true) == Flag(facts, "schema_valid", true)
    && FlagIn(items, "schema_repairable", false) == Flag(facts, "schema_repairable", false)
    && (forall d :: TextIn(items, "tool_risk", d) == TextOr(facts, "tool_risk", d))
    && (forall d :: TextIn(items, "resource_sensitivity", d) == TextOr(facts, "resource_sensitivity", d))
    && FlagIn(items, "grant_present", false) == Flag(facts, "grant_present", false)
    && FlagIn(items, "delegation_present", false) == Flag(facts, "delegation_present", false)
    && FlagIn(items, "recipe_predicts_tool", false) == Flag(facts, "recipe_predicts_tool", false)
    && TextIn(items, "scope_approval_mode", "") == TextOr(facts, "scope_approval_mode", "")
    && FlagIn(items, "similarity_reified", true) == Flag(facts, "similarity_reified", true)
    && FlagIn(items, "context_snapshot_present", ctx.contextPath != []) == Flag(facts, "context_snapshot_present", ctx.contextPath != [])
  }

  lemma CallReadsAlike(ctx: Context, items: seq<Field>)
    ensures CallAlike(ctx, items, AsMap(items))
  {
    hide AsMap, TextIn, TextOr, FlagIn, Flag;
    ItemsReadAlike(items);
  }

  /** What the compiler reads from the items is what it reads from the dictionary. */
  lemma InputsAlike(ctx: Context, items: seq<Field>, thresholds: Thresholds)
    requires DistinctKeys(items)
    ensures InputsIn(ctx, items, thresholds) == ReadInputs(ctx.(facts := AsMap(items)), thresholds)
  {
    hide AsMap, TextIn, TextOr, FlagIn, Flag, OptionalFlag, OptionalFlagIn, CredentialClassIn, CredentialClass, CredentialBindingIn,
         CredentialBinding, JudgeRowsIn, JudgeRows, ViolationKindsIn, ViolationKinds, IdentityIn, ReadIdentity, FloatOf;
    hide Get, DefaultRisk, DistinctKeys, JUDGE_KEYS;
    var id := IdentityIn(ctx, items);
    IdentityAlike(ctx, items);
    ClassAlike(id.tool, items);
    BindingAlike(id.tool, id.scope, items);
    JudgesAlike(id.session, id.tool, items, JUDGE_KEYS);
    ViolationsAlike(items);
    CallReadsAlike(ctx, items);
    EntryAlike(items, "similarity_score");
    EntryAlike(items, "agent_trust_score");
    EntryAlike(items, "break_glass");
    EntryAlike(items, "external_write_predicted");
  }

  lemma CarriedAlike(ctx: Context, items: seq<Field>)
    ensures CarriedIn(ctx, items) == ReadCarried(ctx.(facts := AsMap(items)))
  {
    hide AsMap, TextIn, TextOr;
    TextAlike(items, "goal_hash", "");
    TextAlike(items, "agent_host", "scopememory-demo");
    TextAlike(items, "idempotency_key", "");
    TextAlike(items, "signed_goal_hash", TextIn(items, "goal_hash", ""));
    TextAlike(items, "context_snapshot_id", "");
    TextAlike(items, "dolt_commit", "demo-fixture");
    TextAlike(items, "recipe_index_commit", "demo-fixture");
  }

  /** Compiling and deciding on the items is compiling and deciding on the dictionary. */
  lemma ItemsAreDictionary(sha: Value -> string, thresholds: Thresholds, ctx: Context, items: seq<Field>)
    requires DistinctKeys(items)
    ensures CompileItems(sha, thresholds, ctx, items) == Compile(sha, thresholds, ctx.(facts := AsMap(items)))
    ensures DecideItems(sha, thresholds, ctx, items) == Decide(sha, thresholds, ctx.(facts := AsMap(items)))
  {
    hide AsMap, InputsIn, ReadInputs, CompiledFrom, Sealed, CarriedIn, ReadCarried, EngineAnswer;
    InputsAlike(ctx, items, thresholds);
    CarriedAlike(ctx, items);
  }

  /**
   * Reordering the keys of the facts changes nothing: not the contracts, the rows, the fact strings or their hash, and
   * not the decision or its proof hash.
   */
  lemma DecideIgnoresOrder(sha: Value -> string, thresholds: Thresholds, ctx: Context, a: seq<Field>, b: seq<Field>)
    requires Reordered(a, b)
    ensures CompileItems(sha, thresholds, ctx, a) == CompileItems(sha, thresholds, ctx, b)
    ensures DecideItems(sha, thresholds, ctx, a) == DecideItems(sha, thresholds, ctx, b)
  {
    hide CompileItems, Compile, DecideItems, Decide, AsMap;
    ItemsAreDictionary(sha, thresholds, ctx, a);
    ItemsAreDictionary(sha, thresholds, ctx, b);
    ReorderedIsSameDictionary(a, b);
  }
}
