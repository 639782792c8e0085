/** `compile_policy_facts` and `decide` (platform/cozo_policy.py): from a context dictionary to a hashed decision. */
module PolicyCompile {
  import opened Wrappers
  import opened Text
  import opened Json
  import opened PyText
  import opened PolicyRows

  /** The facts as a dictionary. */
  type Facts = map<string, Value>

  /** The context that the gateway hands to the policy; "" stands for an entry that is absent or empty. */
  datatype Context = Context(
    sessionId: string, toolId: string, resourceId: string, recipeId: string, scope: string, teamId: string,
    resourceTeam: string, userId: string, agentId: string, goalClass: string, accessKind: string,
    contextPath: seq<string>, snapshotId: string, doltCommit: string, recipeIndexCommit: string, facts: Facts)

  // ---- Reading dynamic values ----

  /** The dictionary of a list of items; with distinct keys its lookups are `dict.get`. */
  function AsMap(items: seq<Field>): (m: Facts)
    ensures forall key :: key in m <==> Get(items, key).Some?
    ensures forall key :: key in m ==> m[key] == Get(items, key).value
  {
    map key | key in (set f <- items :: f.key) && Get(items, key).Some? :: Get(items, key).value
  }

  lemma AsMapIsGet(items: seq<Field>)
    requires DistinctKeys(items)
    ensures forall i :: 0 <= i < |items| ==> items[i].key in AsMap(items) && AsMap(items)[items[i].key] == items[i].value
  {
  }

  predicate Truthy(v: Value) {
    match v
    case Null => false
    case Bool(b) => b
    case Num(n) => n != 0
    case Str(s) => s != ""
    case Arr(items) => items != []
    case Obj(fields) => fields != []
  }

  /** `raw.get(key) or ...`: the text of a truthy entry, or the default. */
  function TextOr(facts: Facts, key: string, default: string): string {
    if key in facts && Truthy(facts[key]) then TextOf(facts[key]) else default
  }

  /** `ctx.get(...) or raw.get(key) or default` */
  function Pick(fromContext: string, facts: Facts, key: string, default: string): string {
    if fromContext != "" then fromContext else TextOr(facts, key, default)
  }

  /** `bool(raw.get(key, default))` */
  function Flag(facts: Facts, key: string, default: bool): bool {
    if key in facts then Truthy(facts[key]) else default
  }

  /** `float(v)`; `None` is the exception. */
  function FloatOf(v: Value): Option<int> {
    match v
    case Num(n) => Some(n)
    case Bool(b) => Some(if b then 1000 else 0)
    case _ => None
  }

  /** `_path_at` */
  function PathAt(path: seq<string>, index: nat, default: string): string {
    if |path| > index then path[index] else default
  }

  // ---- The parts of the inputs ----

  function DefaultRisk(tool: string): string {
    if tool == "linear.search_issues" then "low" else if tool == "slack.post_message" then "high" else "medium"
  }

  /** `_credential_required_rows` */
  function CredentialClass(tool: string, facts: Facts): Option<string> {
    var kind := TextOr(facts, "credential_class", "");
    if Flag(facts, "credential_required", kind != "") then Some(if kind != "" then kind else tool + ".credential") else None
  }

  /** `_credential_binding_rows` */
  function CredentialBinding(tool: string, scope: string, facts: Facts): Option<BindingRow> {
    if !Flag(facts, "credential_binding_available", false) then None
    else Some(BindingRow(
      TextOr(facts, "credential_binding_id", "binding:" + tool + ":" + scope), tool, scope,
      TextOr(facts, "credential_ref", "credref:" + tool + ":" + scope),
      TextOr(facts, "credential_provider", "1password"),
      TextOr(facts, "credential_ref_status", "active"),
      TextOr(facts, "credential_injection_mode", "gateway_header"),
      TextOr(facts, "credential_owner_team", "team_sales_ops"),
      Flag(facts, "secret_exposed_to_agent", false)))
  }

  const JUDGE_KEYS: seq<string> := ["judge_goal_consistent", "judge_resource_consistent", "judge_exfiltration_risk"]

  /** `_judge_rows`; an unreadable confidence raises. */
  function JudgeRows(session: string, tool: string, facts: Facts, keys: seq<string>): Result<seq<JudgeRow>> {
    if keys == [] then Ok([])
    else match JudgeRows(session, tool, facts, keys[1..])
      case Err(e) => Err(e)
      case Ok(rest) =>
        if keys[0] !in facts then Ok(rest)
        else
          var c := keys[0] + "_confidence";
          var confidence := if c !in facts then Some(0) else FloatOf(facts[c]);
          if confidence.None? then Err("could not convert confidence to float")
          else Ok([JudgeRow(session, tool, keys[0], Truthy(facts[keys[0]]), confidence.value)] + rest)
  }

  /** `flag_to_violation` in source order. */
  const VIOLATION_FLAGS: seq<(string, string)> := [
    ("attempted_direct_secret_read", "direct_secret_read"), ("direct_secret_read", "direct_secret_read"),
    ("writes_decrypted_credential", "secret_exposure"), ("hook_would_expose_secret", "secret_exposure"),
    ("bulk_export", "bulk_export"), ("goal_expansion", "goal_expansion")]

  const POLICY_SECRET_MARKERS: seq<string> := ["password", "secret", "token", "private_key", "client_secret", "bearer"]

  const EXEMPT_KEYS: set<string> := {
    "credential_required", "credential_ref_status", "credential_provider", "credential_injection_mode",
    "credential_owner_team", "secret_exposed_to_agent"}

  /** A fact whose key looks like a secret and whose value is not empty. */
  predicate ExposesSecret(key: string, value: Value) {
    (exists m :: m in POLICY_SECRET_MARKERS && Contains(Lower(key), m)) && Truthy(value) && key !in EXEMPT_KEYS
  }

  function FlaggedViolations(facts: Facts, flags: seq<(string, string)>): seq<string> {
    if flags == [] then []
    else
      var k := |flags| - 1;
      var before := FlaggedViolations(facts, flags[..k]);
      if Flag(facts, flags[k].0, false) then before + [flags[k].1] else before
  }

  /** The violation kinds of a fact set, in row order. */
  function ViolationKinds(facts: Facts): seq<string> {
    var flagged := FlaggedViolations(facts, VIOLATION_FLAGS);
    if exists key :: key in facts && ExposesSecret(key, facts[key]) then flagged + ["secret_exposure"] else flagged
  }

  /** `_violation_rows`, without the three columns that all its rows share: the flags, then the first telling fact. */
  method CollectViolations(items: seq<Field>) returns (kinds: seq<string>)
    requires DistinctKeys(items)
    ensures kinds == ViolationKinds(AsMap(items))
  {
    var facts := AsMap(items);
    kinds := [];
    for i := 0 to |VIOLATION_FLAGS|
      invariant kinds == FlaggedViolations(facts, VIOLATION_FLAGS[..i])
    {
      assert VIOLATION_FLAGS[..i + 1][..i] == VIOLATION_FLAGS[..i];
      if Flag(facts, VIOLATION_FLAGS[i].0, false) {
        kinds := kinds + [VIOLATION_FLAGS[i].1];
      }
    }
    assert VIOLATION_FLAGS[..|VIOLATION_FLAGS|] == VIOLATION_FLAGS;
    kinds := CollectSecretKey(items, kinds);
  }

  method CollectSecretKey(items: seq<Field>, before: seq<string>) returns (kinds: seq<string>)
    requires DistinctKeys(items)
    ensures kinds == if exists key :: key in AsMap(items) && ExposesSecret(key, AsMap(items)[key]) then before + ["secret_exposure"] else before
  {
    hide ExposesSecret;
    ghost var facts := AsMap(items);
    AsMapIsGet(items);
    for i := 0 to |items|
      invariant forall j :: 0 <= j < i ==> !ExposesSecret(items[j].key, items[j].value)
    {
      if ExposesSecret(items[i].key, items[i].value) {
        assert items[i].key in facts && facts[items[i].key] == items[i].value;
        return before + ["secret_exposure"];
      }
    }
    forall key | key in facts ensures !ExposesSecret(key, facts[key]) {
      var j :| 0 <= j < |items| && items[j].key == key;
      assert facts[items[j].key] == items[j].value;
    }
    kinds := before;
  }

  function OptionalFlag(facts: Facts, key: string): Option<bool> {
    if key in facts then Some(Truthy(facts[key])) else None
  }

  /** The identifiers of a policy question. */
  datatype Identity = Identity(
    session: string, user: string, team: string, agent: string, goalClass: string, tool: string, resource: string,
    recipe: string, scope: string, resourceTeam: string, accessKind: string)

  /** Whose resource it is; for a resource without a team, the flag about equal teams decides. */
  function ReadResourceTeam(ctx: Context, team: string): string {
    Pick(ctx.resourceTeam, ctx.facts, "resource_team", if Flag(ctx.facts, "same_team", false) then team else "team_mismatch")
  }

  function ReadIdentity(ctx: Context): Identity {
    var facts := ctx.facts;
    var path := ctx.contextPath;
    var team := Pick(ctx.teamId, facts, "session_team", PathAt(path, 5, "team_unknown"));
    Identity(
      session := Pick(ctx.sessionId, facts, "session_id", "sess_unknown"),
      user := Pick(ctx.userId, facts, "user_id", PathAt(path, 6, "user_unknown")),
      team := team,
      agent := Pick(ctx.agentId, facts, "agent_id", PathAt(path, 7, "agent_unknown")),
      goalClass := Pick(ctx.goalClass, facts, "goal_class", "sales_renewal_prep"),
      tool := Pick(ctx.toolId, facts, "tool_id", "tool.unknown"),
      resource := Pick(ctx.resourceId, facts, "resource_id", "resource:unknown"),
      recipe := if ctx.recipeId != "" then ctx.recipeId else PathAt(path, 1, "recipe_unknown"),
      scope := Pick(ctx.scope, facts, "scope", PathAt(path, 3, "scope:unknown")),
      resourceTeam := ReadResourceTeam(ctx, team),
      accessKind := Pick(ctx.accessKind, facts, "access_kind", "read"))
  }

  /** Everything that `compile_policy_facts` reads before it builds its rows. */
  function ReadInputs(ctx: Context, thresholds: Thresholds): (r: Result<Inputs>) {
    var facts := ctx.facts;
    var id := ReadIdentity(ctx);
    var external := Flag(facts, "resource_external", false);
    var score := if "similarity_score" in facts then FloatOf(facts["similarity_score"])
                 else Some(if id.recipe != "recipe_unknown" then 1000 else 0);
    var judges := JudgeRows(id.session, id.tool, facts, JUDGE_KEYS);
    if score.None? then Err("could not convert similarity_score to float")
    else if judges.Err? then Err(judges.error)
    else Ok(Inputs(
      session := id.session, user := id.user, team := id.team, agent := id.agent, goalClass := id.goalClass,
      tool := id.tool, resource := id.resource, recipe := id.recipe, scope := id.scope, resourceTeam := id.resourceTeam,
      schemaValid := Flag(facts, "schema_valid", true),
      schemaRepairable := Flag(facts, "schema_repairable", false),
      accessKind := id.accessKind,
      risk := TextOr(facts, "tool_risk", DefaultRisk(id.tool)),
      external := external,
      sensitivity := TextOr(facts, "resource_sensitivity", if external then "high" else "normal"),
      grantPresent := Flag(facts, "grant_present", false),
      delegationPresent := Flag(facts, "delegation_present", false),
      recipePredictsTool := Flag(facts, "recipe_predicts_tool", false),
      approvalMode := if TextOr(facts, "scope_approval_mode", "") != "" then Some(TextOr(facts, "scope_approval_mode", "")) else None,
      reified := Flag(facts, "similarity_reified", true),
      score := score.value,
      contextPath := ctx.contextPath,
      credentialClass := CredentialClass(id.tool, facts),
      binding := CredentialBinding(id.tool, id.scope, facts),
      judges := judges.value,
      violations := ViolationKinds(facts),
      snapshotPresent := Flag(facts, "context_snapshot_present", ctx.contextPath != []),
      breakGlass := OptionalFlag(facts, "break_glass"),
      externalWritePredicted := OptionalFlag(facts, "external_write_predicted"),
      trust := if "agent_trust_score" in facts then FloatOf(facts["agent_trust_score"]) else None,
      thresholds := thresholds))
  }

  // ---- Key order does not matter ----

  /** The same dictionary with its keys in another order. */
  ghost predicate Reordered(a: seq<Field>, b: seq<Field>) {
    DistinctKeys(a) && DistinctKeys(b) && forall f :: f in a <==> f in b
  }

  /** Reordered items are the same dictionary. */
  lemma ReorderedIsSameDictionary(a: seq<Field>, b: seq<Field>)
    requires Reordered(a, b)
    ensures AsMap(a) == AsMap(b)
  {
  }
}
