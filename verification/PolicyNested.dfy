/**
 * Key order below the top level of the facts (platform/cozo_policy.py, platform/policy_contracts.py): the hashes ignore
 * it, but `str` of a nested dictionary shows it, so it can reach the policy through the text columns.
 */
module PolicyNested {
  import opened Wrappers
  import opened Json
  import opened Canonical
  import opened PyText
  import opened PolicyRows
  import opened PolicyCompile
  import opened PolicyDecide
  import opened PolicyOrdered

  /** The same facts up to key order at any depth. */
  ghost predicate Alike(a: Facts, b: Facts) {
    a.Keys == b.Keys && forall key :: key in a ==> WellFormed(a[key]) && WellFormed(b[key]) && SameValue(a[key], b[key])
  }

  /** A fact that is read as text has the same keys in the same order. */
  predicate SameText(a: Facts, b: Facts, key: string) {
    key in a && key in b && Truthy(a[key]) ==> a[key] == b[key]
  }

  lemma DecimalNotEmpty(n: int)
    ensures NumberText(n) != ""
  {
  }

  lemma TruthyHasText(v: Value)
    requires Truthy(v)
    ensures TextOf(v) != ""
  {
    if v.Num? {
      DecimalNotEmpty(v.n);
    }
  }

  /** Truth and numbers do not depend on key order. */
  lemma OrderFreeReads(v: Value, w: Value)
    requires SameValue(v, w)
    ensures Truthy(v) == Truthy(w) && FloatOf(v) == FloatOf(w)
  {
    if v.Obj? {
      assert |v.fields| > 0 ==> MatchedIn(v.fields[0], w.fields);
      assert |w.fields| > 0 ==> MatchesIn(v.fields, w.fields[0]);
    }
  }

  lemma FlagSame(a: Facts, b: Facts, key: string, d: bool)
    requires Alike(a, b)
    ensures Flag(a, key, d) == Flag(b, key, d) && OptionalFlag(a, key) == OptionalFlag(b, key)
    ensures key in a <==> key in b
    ensures key in a ==> FloatOf(a[key]) == FloatOf(b[key])
  {
    if key in a {
      OrderFreeReads(a[key], b[key]);
    }
  }

  lemma TextSameIff(a: Facts, b: Facts, key: string, d: string)
    requires Alike(a, b)
    ensures TextOr(a, key, d) == TextOr(b, key, d) <==> SameText(a, b, key)
  {
    if key in a {
      OrderFreeReads(a[key], b[key]);
      TextTellsOrder(a[key], b[key]);
    }
  }

  lemma EmptyTextSame(a: Facts, b: Facts, key: string)
    requires Alike(a, b)
    ensures TextOr(a, key, "") == "" <==> TextOr(b, key, "") == ""
  {
    if key in a {
      OrderFreeReads(a[key], b[key]);
      if Truthy(a[key]) {
        TruthyHasText(a[key]);
        TruthyHasText(b[key]);
      }
    }
  }

  lemma {:induction false} JudgesSame(session: string, tool: string, a: Facts, b: Facts, keys: seq<string>)
    requires Alike(a, b)
    ensures JudgeRows(session, tool, a, keys) == JudgeRows(session, tool, b, keys)
  {
    hide Alike, Truthy, FloatOf;
    if keys != [] {
      JudgesSame(session, tool, a, b, keys[1..]);
      FlagSame(a, b, keys[0], false);
      FlagSame(a, b, keys[0] + "_confidence", false);
    }
  }

  lemma {:induction false} JudgesFailAlike(s1: string, t1: string, s2: string, t2: string, facts: Facts, keys: seq<string>)
    ensures JudgeRows(s1, t1, facts, keys).Ok? <==> JudgeRows(s2, t2, facts, keys).Ok?
  {
    if keys != [] {
      JudgesFailAlike(s1, t1, s2, t2, facts, keys[1..]);
    }
  }

  lemma {:induction false} FlaggedSame(a: Facts, b: Facts, flags: seq<(string, string)>)
    requires Alike(a, b)
    ensures FlaggedViolations(a, flags) == FlaggedViolations(b, flags)
  {
    hide Alike;
    if flags != [] {
      FlaggedSame(a, b, flags[..|flags| - 1]);
      FlagSame(a, b, flags[|flags| - 1].0, false);
    }
  }

  lemma ViolationsSame(a: Facts, b: Facts)
    requires Alike(a, b)
    ensures ViolationKinds(a) == ViolationKinds(b)
  {
    hide FlaggedViolations;
    FlaggedSame(a, b, VIOLATION_FLAGS);
    forall key ensures key in a && ExposesSecret(key, a[key]) <==> key in b && ExposesSecret(key, b[key]) {
      if key in a {
        OrderFreeReads(a[key], b[key]);
      }
    }
  }

  // ---- Which nested orders are read ----

  /** The identifiers: a fact is read as text where the context does not say it. */
  predicate IdentityKept(ctx: Context, a: Facts, b: Facts) {
    && (ctx.sessionId == "" ==> SameText(a, b, "session_id"))
    && (ctx.userId == "" ==> SameText(a, b, "user_id"))
    && (ctx.teamId == "" ==> SameText(a, b, "session_team"))
    && (ctx.agentId == "" ==> SameText(a, b, "agent_id"))
    && (ctx.goalClass == "" ==> SameText(a, b, "goal_class"))
    && (ctx.toolId == "" ==> SameText(a, b, "tool_id"))
    && (ctx.resourceId == "" ==> SameText(a, b, "resource_id"))
    && (ctx.scope == "" ==> SameText(a, b, "scope"))
    && (ctx.resourceTeam == "" ==> SameText(a, b, "resource_team"))
    && (ctx.accessKind == "" ==> SameText(a, b, "access_kind"))
  }

  predicate CredentialKept(a: Facts, b: Facts) {
    Flag(a, "credential_required", TextOr(a, "credential_class", "") != "") ==> SameText(a, b, "credential_class")
  }

  predicate BindingKept(a: Facts, b: Facts) {
    Flag(a, "credential_binding_available", false) ==>
      && SameText(a, b, "credential_binding_id") && SameText(a, b, "credential_ref") && SameText(a, b, "credential_provider")
      && SameText(a, b, "credential_ref_status") && SameText(a, b, "credential_injection_mode") && SameText(a, b, "credential_owner_team")
  }

  predicate ColumnsKept(a: Facts, b: Facts) {
    SameText(a, b, "tool_risk") && SameText(a, b, "resource_sensitivity")
  }

  /** The context says which recipe was matched; without one the approval mode enters no row. */
  predicate RecipeKnown(ctx: Context) {
    (if ctx.recipeId != "" then ctx.recipeId else PathAt(ctx.contextPath, 1, "recipe_unknown")) != "recipe_unknown"
  }

  /** Every fact whose text enters a row has its nested keys in the same order. */
  predicate RowsKept(ctx: Context, a: Facts, b: Facts) {
    && IdentityKept(ctx, a, b) && CredentialKept(a, b) && BindingKept(a, b) && ColumnsKept(a, b)
    && (RecipeKnown(ctx) ==> SameText(a, b, "scope_approval_mode"))
  }

  predicate CommitsKept(ctx: Context, a: Facts, b: Facts) {
    && (ctx.doltCommit == "" ==> SameText(a, b, "dolt_commit"))
    && (ctx.recipeIndexCommit == "" ==> SameText(a, b, "recipe_index_commit"))
  }

  /** The texts that are carried along outside the rows and outside the proof hash. */
  predicate TracesKept(ctx: Context, a: Facts, b: Facts) {
    && SameText(a, b, "goal_hash") && SameText(a, b, "agent_host") && SameText(a, b, "idempotency_key")
    && SameText(a, b, "signed_goal_hash")
    && (ctx.snapshotId == "" ==> SameText(a, b, "context_snapshot_id"))
  }

  // ---- The exact condition ----

  lemma PickSameIff(fromContext: string, a: Facts, b: Facts, key: string, d: string)
    requires Alike(a, b)
    ensures Pick(fromContext, a, key, d) == Pick(fromContext, b, key, d) <==> (fromContext == "" ==> SameText(a, b, key))
  {
    hide TextOr, SameText, Alike;
    TextSameIff(a, b, key, d);
  }

  lemma ResourceTeamSameIff(ctx: Context, a: Facts, b: Facts, team: string)
    requires Alike(a, b)
    ensures ReadResourceTeam(ctx.(facts := a), team) == ReadResourceTeam(ctx.(facts := b), team)
       <==> (ctx.resourceTeam == "" ==> SameText(a, b, "resource_team"))
  {
    hide Pick, SameText, Alike, Flag;
    FlagSame(a, b, "same_team", false);
    PickSameIff(ctx.resourceTeam, a, b, "resource_team", if Flag(a, "same_team", false) then team else "team_mismatch");
  }

  lemma IdentitySameIff(ctx: Context, a: Facts, b: Facts)
    requires Alike(a, b)
    ensures ReadIdentity(ctx.(facts := a)) == ReadIdentity(ctx.(facts := b)) <==> IdentityKept(ctx, a, b)
  {
    hide Pick, SameText, Alike, ReadResourceTeam, PathAt;
    var path := ctx.contextPath;
    PickSameIff(ctx.sessionId, a, b, "session_id", "sess_unknown");
    PickSameIff(ctx.userId, a, b, "user_id", PathAt(path, 6, "user_unknown"));
    PickSameIff(ctx.teamId, a, b, "session_team", PathAt(path, 5, "team_unknown"));
    PickSameIff(ctx.agentId, a, b, "agent_id", PathAt(path, 7, "agent_unknown"));
    PickSameIff(ctx.goalClass, a, b, "goal_class", "sales_renewal_prep");
    PickSameIff(ctx.toolId, a, b, "tool_id", "tool.unknown");
    PickSameIff(ctx.resourceId, a, b, "resource_id", "resource:unknown");
    PickSameIff(ctx.scope, a, b, "scope", PathAt(path, 3, "scope:unknown"));
    PickSameIff(ctx.accessKind, a, b, "access_kind", "read");
    ResourceTeamSameIff(ctx, a, b, ReadIdentity(ctx.(facts := a)).team);
  }

  lemma CredentialSameIff(a: Facts, b: Facts, tool: string)
    requires Alike(a, b)
    ensures CredentialClass(tool, a) == CredentialClass(tool, b) <==> CredentialKept(a, b)
  {
    hide TextOr, Flag, SameText, Alike;
    TextSameIff(a, b, "credential_class", "");
    EmptyTextSame(a, b, "credential_class");
    FlagSame(a, b, "credential_required", TextOr(a, "credential_class", "") != "");
  }

  lemma BindingSameIff(a: Facts, b: Facts, tool: string, scope: string)
    requires Alike(a, b)
    ensures CredentialBinding(tool, scope, a) == CredentialBinding(tool, scope, b) <==> BindingKept(a, b)
  {
    hide TextOr, Flag, SameText, Alike;
    FlagSame(a, b, "credential_binding_available", false);
    TextSameIff(a, b, "credential_binding_id", "binding:" + tool + ":" + scope);
    TextSameIff(a, b, "credential_ref", "credref:" + tool + ":" + scope);
    TextSameIff(a, b, "credential_provider", "1password");
    TextSameIff(a, b, "credential_ref_status", "active");
    TextSameIff(a, b, "credential_injection_mode", "gateway_header");
    TextSameIff(a, b, "credential_owner_team", "team_sales_ops");
    FlagSame(a, b, "secret_exposed_to_agent", false);
  }

  /** The inputs without an approval mode that enters no row. */
  function Modeless(i: Inputs): Inputs {
    if KnownRecipe(i) then i else i.(approvalMode := None)
  }

  /** The inputs agree on everything that is not read as text. */
  ghost predicate SameFlags(i: Inputs, j: Inputs) {
    SameCallFlags(i, j) && SameSignals(i, j)
  }

  ghost predicate SameCallFlags(i: Inputs, j: Inputs) {
    && i.recipe == j.recipe && i.contextPath == j.contextPath && i.thresholds == j.thresholds
    && i.schemaValid == j.schemaValid && i.schemaRepairable == j.schemaRepairable && i.external == j.external
    && i.grantPresent == j.grantPresent && i.delegationPresent == j.delegationPresent
    && i.recipePredictsTool == j.recipePredictsTool && i.reified == j.reified
  }

  ghost predicate SameSignals(i: Inputs, j: Inputs) {
    && i.score == j.score
    && i.violations == j.violations && i.snapshotPresent == j.snapshotPresent && i.breakGlass == j.breakGlass
    && i.externalWritePredicted == j.externalWritePredicted && i.trust == j.trust
    && (i.session == j.session && i.tool == j.tool ==> i.judges == j.judges)
  }

  /** The inputs agree on every text that enters a row. */
  predicate SameTexts(i: Inputs, j: Inputs) {
    && i.session == j.session && i.user == j.user && i.team == j.team && i.agent == j.agent && i.goalClass == j.goalClass
    && i.tool == j.tool && i.resource == j.resource && i.scope == j.scope && i.resourceTeam == j.resourceTeam
    && i.accessKind == j.accessKind && i.risk == j.risk && i.sensitivity == j.sensitivity
    && (KnownRecipe(i) ==> i.approvalMode == j.approvalMode)
    && i.credentialClass == j.credentialClass && i.binding == j.binding
  }

  /** Key order does not decide whether the facts can be read. */
  lemma ReadableAlike(ctx: Context, a: Facts, b: Facts, th: Thresholds)
    requires Alike(a, b) && ReadInputs(ctx.(facts := a), th).Ok?
    ensures ReadInputs(ctx.(facts := b), th).Ok?
  {
    hide TextOr, Flag, OptionalFlag, FloatOf, Alike, ReadIdentity, CredentialClass, CredentialBinding, JudgeRows, ViolationKinds, DefaultRisk;
    var x, y := ReadIdentity(ctx.(facts := a)), ReadIdentity(ctx.(facts := b));
    JudgesSame(x.session, x.tool, a, b, JUDGE_KEYS);
    JudgesFailAlike(x.session, x.tool, y.session, y.tool, b, JUDGE_KEYS);
    FlagSame(a, b, "similarity_score", false);
  }

  lemma CallFlagsSame(ctx: Context, a: Facts, b: Facts, th: Thresholds, i: Inputs, j: Inputs)
    requires Alike(a, b) && ReadInputs(ctx.(facts := a), th) == Ok(i) && ReadInputs(ctx.(facts := b), th) == Ok(j)
    ensures SameCallFlags(i, j)
  {
    hide TextOr, Flag, OptionalFlag, FloatOf, Alike, ReadIdentity, CredentialClass, CredentialBinding, JudgeRows, ViolationKinds, DefaultRisk,
         RecipeKnown;
    FlagSame(a, b, "resource_external", false);
    FlagSame(a, b, "schema_valid", true);
    FlagSame(a, b, "schema_repairable", false);
    FlagSame(a, b, "grant_present", false);
    FlagSame(a, b, "delegation_present", false);
    FlagSame(a, b, "recipe_predicts_tool", false);
    FlagSame(a, b, "similarity_reified", true);
    SameRecipe(ctx, a, b);
  }

  lemma SignalsSame(ctx: Context, a: Facts, b: Facts, th: Thresholds, i: Inputs, j: Inputs)
    requires Alike(a, b) && ReadInputs(ctx.(facts := a), th) == Ok(i) && ReadInputs(ctx.(facts := b), th) == Ok(j)
    ensures SameSignals(i, j)
  {
    hide TextOr, Flag, OptionalFlag, FloatOf, Alike, ReadIdentity, CredentialClass, CredentialBinding, JudgeRows, ViolationKinds, DefaultRisk,
         RecipeKnown;
    JudgesSame(i.session, i.tool, a, b, JUDGE_KEYS);
    ViolationsSame(a, b);
    FlagSame(a, b, "similarity_score", false);
    FlagSame(a, b, "agent_trust_score", false);
    FlagSame(a, b, "context_snapshot_present", ctx.contextPath != []);
    FlagSame(a, b, "break_glass", false);
    FlagSame(a, b, "external_write_predicted", false);
    SameRecipe(ctx, a, b);
  }

  /** The texts that enter a row are the same exactly when their facts keep their order. */
  lemma TextsSameIff(ctx: Context, a: Facts, b: Facts, th: Thresholds, i: Inputs, j: Inputs)
    requires Alike(a, b) && ReadInputs(ctx.(facts := a), th) == Ok(i) && ReadInputs(ctx.(facts := b), th) == Ok(j)
    ensures SameTexts(i, j) <==> RowsKept(ctx, a, b)
  {
    hide TextOr, Flag, OptionalFlag, FloatOf, SameText, Alike, ReadIdentity, CredentialClass, CredentialBinding, JudgeRows, ViolationKinds,
         IdentityKept, CredentialKept, BindingKept, DefaultRisk, RecipeKnown;
    var x := ReadIdentity(ctx.(facts := a));
    IdentitySameIff(ctx, a, b);
    CredentialSameIff(a, b, x.tool);
    BindingSameIff(a, b, x.tool, x.scope);
    FlagSame(a, b, "resource_external", false);
    TextSameIff(a, b, "tool_risk", DefaultRisk(x.tool));
    TextSameIff(a, b, "resource_sensitivity", if Flag(a, "resource_external", false) then "high" else "normal");
    TextSameIff(a, b, "scope_approval_mode", "");
    EmptyTextSame(a, b, "scope_approval_mode");
    SameRecipe(ctx, a, b);
  }

  lemma SameRecipe(ctx: Context, a: Facts, b: Facts)
    ensures ReadIdentity(ctx.(facts := a)).recipe == ReadIdentity(ctx.(facts := b)).recipe
    ensures ReadIdentity(ctx.(facts := a)).recipe != "recipe_unknown" <==> RecipeKnown(ctx)
  {
  }

  lemma ModeInNoRow(i: Inputs)
    ensures RowsOf(Modeless(i)) == RowsOf(i)
  {
  }

  lemma MainRowsTell(i: Inputs, j: Inputs)
    requires RowsOf(i) == RowsOf(j)
    ensures i.session == j.session && i.user == j.user && i.team == j.team && i.agent == j.agent && i.goalClass == j.goalClass
    ensures i.tool == j.tool && i.resource == j.resource && i.scope == j.scope && i.resourceTeam == j.resourceTeam
    ensures i.accessKind == j.accessKind && i.risk == j.risk && i.sensitivity == j.sensitivity
  {
    var r, s := RowsOf(i), RowsOf(j);
    assert r.session[0] == s.session[0] && r.requestedTool[0] == s.requestedTool[0] && r.requestedResource[0] == s.requestedResource[0];
    assert r.toolScope[0] == s.toolScope[0] && r.resource[0] == s.resource[0];
  }

  lemma OptionalRowsTell(i: Inputs, j: Inputs)
    requires RowsOf(i) == RowsOf(j) && KnownRecipe(i) == KnownRecipe(j)
    ensures i.credentialClass == j.credentialClass && i.binding == j.binding
    ensures KnownRecipe(i) ==> i.approvalMode == j.approvalMode
  {
    var r, s := RowsOf(i), RowsOf(j);
    assert |r.credentialRequired| == |s.credentialRequired| && |r.credentialBinding| == |s.credentialBinding| && |r.recipeScope| == |s.recipeScope|;
    assert |r.credentialRequired| > 0 ==> r.credentialRequired[0] == s.credentialRequired[0];
    assert |r.credentialBinding| > 0 ==> r.credentialBinding[0] == s.credentialBinding[0];
    assert |r.recipeScope| > 0 ==> r.recipeScope[0] == s.recipeScope[0];
  }

  /** The rows tell the texts that entered them. */
  lemma RowsTellIff(i: Inputs, j: Inputs)
    requires SameFlags(i, j)
    ensures RowsOf(i) == RowsOf(j) <==> SameTexts(i, j)
  {
    hide RowsOf;
    ModeInNoRow(i);
    ModeInNoRow(j);
    if SameTexts(i, j) {
      assert Modeless(i) == Modeless(j);
    } else if RowsOf(i) == RowsOf(j) {
      MainRowsTell(i, j);
      OptionalRowsTell(i, j);
    }
  }

  lemma CarriedSameIff(ctx: Context, a: Facts, b: Facts)
    requires Alike(a, b)
    ensures ReadCarried(ctx.(facts := a)) == ReadCarried(ctx.(facts := b)) <==> TracesKept(ctx, a, b) && CommitsKept(ctx, a, b)
    ensures CommitsKept(ctx, a, b) <==>
      && ReadCarried(ctx.(facts := a)).doltCommit == ReadCarried(ctx.(facts := b)).doltCommit
      && ReadCarried(ctx.(facts := a)).recipeIndexCommit == ReadCarried(ctx.(facts := b)).recipeIndexCommit
  {
    hide TextOr, SameText, Alike, Pick;
    TextSameIff(a, b, "goal_hash", "");
    TextSameIff(a, b, "agent_host", "scopememory-demo");
    TextSameIff(a, b, "idempotency_key", "");
    TextSameIff(a, b, "signed_goal_hash", TextOr(a, "goal_hash", ""));
    PickSameIff(ctx.snapshotId, a, b, "context_snapshot_id", "");
    PickSameIff(ctx.doltCommit, a, b, "dolt_commit", "demo-fixture");
    PickSameIff(ctx.recipeIndexCommit, a, b, "recipe_index_commit", "demo-fixture");
  }

  /** Two compiled fact sets are one record exactly when their rows and carried texts agree. */
  lemma RecordsSameIff(sha: Value -> string, i: Inputs, j: Inputs, c: Carried, d: Carried)
    requires SameFlags(i, j)
    ensures CompiledFrom(sha, i, c) == CompiledFrom(sha, j, d) <==> RowsOf(i) == RowsOf(j) && c == d
  {
    hide RowsOf, RowsJson, FactStrings, FactSetTree;
    RowsTellIff(i, j);
  }

  /** Every entry of one dictionary has its counterpart in the other. */
  lemma EntryMatched(a: seq<Field>, b: seq<Field>, i: nat)
    requires i < |a| && MatchedIn(a[i], b) && DistinctKeys(b)
    ensures a[i].key in AsMap(b) && SameValue(a[i].value, AsMap(b)[a[i].key])
    ensures exists j :: 0 <= j < |b| && AsMap(b)[a[i].key] == b[j].value
  {
    hide AsMap, SameValue, DistinctKeys;
    AsMapIsGet(b);
    var j :| 0 <= j < |b| && SameField(a[i], b[j]);
    assert AsMap(b)[b[j].key] == b[j].value;
  }

  lemma EntryMatches(a: seq<Field>, b: seq<Field>, j: nat)
    requires j < |b| && MatchesIn(a, b[j]) && DistinctKeys(a)
    ensures b[j].key in AsMap(a)
  {
    hide AsMap, SameValue, DistinctKeys;
    AsMapIsGet(a);
    var i :| 0 <= i < |a| && SameField(a[i], b[j]);
  }

  lemma PartsOfDictionary(a: seq<Field>, b: seq<Field>)
    requires WellFormed(Obj(a)) && WellFormed(Obj(b)) && SameValue(Obj(a), Obj(b))
    ensures DistinctKeys(a) && (forall i :: 0 <= i < |a| ==> WellFormed(a[i].value) && MatchedIn(a[i], b))
    ensures DistinctKeys(b) && (forall j :: 0 <= j < |b| ==> WellFormed(b[j].value) && MatchesIn(a, b[j]))
  {
  }

  /** A key of one dictionary is a key of the other, with the same value up to key order. */
  lemma KeyMatched(a: seq<Field>, b: seq<Field>, key: string)
    requires DistinctKeys(a) && DistinctKeys(b) && key in AsMap(a)
    requires forall i :: 0 <= i < |a| ==> WellFormed(a[i].value) && MatchedIn(a[i], b)
    requires forall j :: 0 <= j < |b| ==> WellFormed(b[j].value)
    ensures key in AsMap(b)
    ensures WellFormed(AsMap(a)[key]) && WellFormed(AsMap(b)[key]) && SameValue(AsMap(a)[key], AsMap(b)[key])
  {
    hide AsMap, MatchedIn, DistinctKeys, WellFormed, SameValue;
    AsMapIsGet(a);
    var i :| 0 <= i < |a| && a[i].key == key;
    EntryMatched(a, b, i);
    assert AsMap(a)[a[i].key] == a[i].value;
  }

  lemma KeyMatches(a: seq<Field>, b: seq<Field>, key: string)
    requires DistinctKeys(a) && key in AsMap(b)
    requires forall j :: 0 <= j < |b| ==> MatchesIn(a, b[j])
    ensures key in AsMap(a)
  {
    hide AsMap, MatchesIn, DistinctKeys;
    var j :| 0 <= j < |b| && b[j].key == key;
    EntryMatches(a, b, j);
  }

  lemma SameDictionaryAlike(a: seq<Field>, b: seq<Field>)
    requires WellFormed(Obj(a)) && WellFormed(Obj(b)) && SameValue(Obj(a), Obj(b))
    ensures Alike(AsMap(a), AsMap(b))
  {
    hide AsMap, WellFormed, SameValue, MatchedIn, MatchesIn, DistinctKeys;
    PartsOfDictionary(a, b);
    var x, y := AsMap(a), AsMap(b);
    forall key | key in x ensures key in y && WellFormed(x[key]) && WellFormed(y[key]) && SameValue(x[key], y[key]) {
      KeyMatched(a, b, key);
    }
    forall key | key in y ensures key in x {
      KeyMatches(a, b, key);
    }
    assert x.Keys == y.Keys;
  }

  /** Facts that are equal up to key order at every depth are read alike: both fail, or both compile. */
  lemma NestedReads(th: Thresholds, ctx: Context, a: seq<Field>, b: seq<Field>, i: Inputs)
    requires WellFormed(Obj(a)) && WellFormed(Obj(b)) && SameValue(Obj(a), Obj(b))
    requires InputsIn(ctx, a, th) == Ok(i)
    ensures InputsIn(ctx, b, th).Ok?
    ensures ReadInputs(ctx.(facts := AsMap(a)), th) == Ok(i) && ReadInputs(ctx.(facts := AsMap(b)), th) == InputsIn(ctx, b, th)
    ensures Alike(AsMap(a), AsMap(b))
  {
    hide InputsIn, ReadInputs, AsMap, Alike;
    SameDictionaryAlike(a, b);
    assert DistinctKeys(a) && DistinctKeys(b);
    InputsAlike(ctx, a, th);
    InputsAlike(ctx, b, th);
    ReadableAlike(ctx, AsMap(a), AsMap(b), th);
  }
}
