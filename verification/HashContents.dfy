/**
 * What the hashes of the platform tell (platform/gateway_service.py, platform/cozo_policy.py): two idempotency keys are
 * equal, and two proof hashes are equal, exactly when everything that they are said to cover is equal.
 */
module HashContents {
  import opened Json
  import opened Canonical
  import opened PolicyTable
  import opened PolicyCompile
  import opened PolicyDecide
  import opened GatewayContext

  // ---- Trees with given keys ----

  lemma StringsStay(texts: seq<string>)
    ensures SortKeys(Strings(texts)) == Strings(texts)
  {
    var v := Strings(texts);
    forall k | 0 <= k < |texts| ensures SortKeys(v.items[k]) == v.items[k] {
      assert v.items[k] == Str(texts[k]);
    }
    assert SortKeys(v).items == v.items;
  }

  lemma StringsTell(a: seq<string>, b: seq<string>)
    ensures Strings(a) == Strings(b) <==> a == b
  {
    var x, y := Strings(a).items, Strings(b).items;
    if x == y {
      forall k | 0 <= k < |a| ensures a[k] == b[k] {
        assert x[k] == Str(a[k]) && y[k] == Str(b[k]);
      }
    }
  }

  predicate Named(fields: seq<Field>, names: seq<string>) {
    |fields| == |names| && forall n :: 0 <= n < |names| ==> fields[n].key == names[n]
  }

  predicate Differ(names: seq<string>) {
    forall m, n :: 0 <= m < n < |names| ==> names[m] != names[n]
  }

  lemma NamesTell(names: seq<string>, m: nat, n: nat)
    requires Differ(names) && m < |names| && n < |names|
    ensures names[m] == names[n] <==> m == n
  {
  }

  predicate AgreeAt(x: seq<Field>, y: seq<Field>, n: nat)
    requires n < |x| && n < |y|
  {
    SortKeys(x[n].value) == SortKeys(y[n].value)
  }

  lemma NamedAgree(x: seq<Field>, y: seq<Field>, names: seq<string>)
    requires Named(x, names) && Named(y, names) && Differ(names)
    ensures SortKeys(Obj(x)) == SortKeys(Obj(y)) <==> forall n :: 0 <= n < |names| ==> AgreeAt(x, y, n)
  {
    hide SortKeys;
    SameKeysAgree(x, y);
    assert forall n :: 0 <= n < |names| ==> (AgreeAt(x, y, n) <==> SortKeys(x[n].value) == SortKeys(y[n].value));
  }

  lemma StringsAgree(x: seq<Field>, y: seq<Field>, n: nat, a: seq<string>, b: seq<string>)
    requires n < |x| && n < |y| && x[n].value == Strings(a) && y[n].value == Strings(b)
    ensures AgreeAt(x, y, n) <==> a == b
  {
    hide SortKeys, Strings;
    StringsStay(a);
    StringsStay(b);
    StringsTell(a, b);
  }

  // ---- The idempotency key ----

  const KEY_NAMES: seq<string> := ["session_id", "tool_id", "resource_id", "scope", "grant_present", "context_path", "recipe_index_commit"]

  lemma KeyNamesDiffer()
    ensures Differ(KEY_NAMES)
  {
  }

  /** `facts.get(key)` */
  function FactOrNull(facts: Facts, key: string): Value {
    if key in facts then facts[key] else Null
  }

  lemma KeyTreeNamed(ctx: Context, scope: Value, grant: Value)
    ensures Named(KeyTree(ctx, scope, grant).fields, KEY_NAMES)
  {
  }

  lemma TextsAgree(a: Context, b: Context, s: Value, t: Value, g: Value, h: Value)
    ensures var x, y := KeyTree(a, s, g).fields, KeyTree(b, t, h).fields;
      && (AgreeAt(x, y, 0) <==> a.sessionId == b.sessionId)
      && (AgreeAt(x, y, 1) <==> a.toolId == b.toolId)
      && (AgreeAt(x, y, 2) <==> a.resourceId == b.resourceId)
      && (AgreeAt(x, y, 6) <==> a.recipeIndexCommit == b.recipeIndexCommit)
  {
    hide Strings;
  }

  lemma KeyValues(ctx: Context, s: Value, g: Value)
    ensures KeyTree(ctx, s, g).Obj?
    ensures var x := KeyTree(ctx, s, g).fields;
      |x| == 7 && x[3].value == s && x[4].value == g && x[5].value == Strings(ctx.contextPath)
  {
    hide Strings;
  }

  lemma ValuesAgree(a: Context, b: Context, s: Value, t: Value, g: Value, h: Value)
    ensures var x, y := KeyTree(a, s, g).fields, KeyTree(b, t, h).fields;
      && (AgreeAt(x, y, 3) <==> SortKeys(s) == SortKeys(t))
      && (AgreeAt(x, y, 4) <==> SortKeys(g) == SortKeys(h))
      && (AgreeAt(x, y, 5) <==> a.contextPath == b.contextPath)
  {
    hide SortKeys, Strings, KeyTree;
    KeyValues(a, s, g);
    KeyValues(b, t, h);
    StringsAgree(KeyTree(a, s, g).fields, KeyTree(b, t, h).fields, 5, a.contextPath, b.contextPath);
  }

  /**
   * Two questions have one idempotency key exactly when they agree in session, tool, resource, scope, grant fact,
   * context path and index commit; nothing else matters.
   */
  lemma KeysEqualIff(sha: Value -> string, a: Context, b: Context)
    requires PerfectHash(sha)
    ensures IdempotencyKey(sha, a) == IdempotencyKey(sha, b)
       <==> && a.sessionId == b.sessionId && a.toolId == b.toolId && a.resourceId == b.resourceId
            && SortKeys(FactOrNull(a.facts, "scope")) == SortKeys(FactOrNull(b.facts, "scope"))
            && SortKeys(FactOrNull(a.facts, "grant_present")) == SortKeys(FactOrNull(b.facts, "grant_present"))
            && a.contextPath == b.contextPath && a.recipeIndexCommit == b.recipeIndexCommit
  {
    hide SortKeys, Named, AgreeAt, Strings;
    var s, t := FactOrNull(a.facts, "scope"), FactOrNull(b.facts, "scope");
    var g, h := FactOrNull(a.facts, "grant_present"), FactOrNull(b.facts, "grant_present");
    KeyNamesDiffer();
    KeyTreeNamed(a, s, g);
    KeyTreeNamed(b, t, h);
    NamedAgree(KeyTree(a, s, g).fields, KeyTree(b, t, h).fields, KEY_NAMES);
    TextsAgree(a, b, s, t, g, h);
    ValuesAgree(a, b, s, t, g, h);
    hide KeyTree;
  }

  // ---- The proof hash ----

  const PROOF_NAMES: seq<string> := [
    "decision", "session_id", "tool", "required_scope", "resource", "reason", "rules", "facts", "context_path", "dolt_commit",
    "recipe_index_commit", "candidate_decisions", "fact_set_hash"]

  lemma ProofNamesDiffer()
    ensures Differ(PROOF_NAMES)
  {
  }

  lemma PayloadNamed(k: Compiled, c: Candidate)
    ensures ProofPayload(k, c).Obj? && Named(ProofPayload(k, c).fields, PROOF_NAMES)
  {
    hide Strings, CandidateJson, DecisionText, ProofRules;
  }

  lemma AnswerInPayload(k: Compiled, c: Candidate)
    ensures ProofPayload(k, c).Obj? && |ProofPayload(k, c).fields| == 13
    ensures var x := ProofPayload(k, c).fields;
      && x[0].value == Str(DecisionText(c.decision)) && x[5].value == Str(c.reason) && x[6].value == Strings(ProofRules(c.rule))
      && x[9].value == Str(k.doltCommit) && x[10].value == Str(k.recipeIndexCommit) && x[12].value == Str(k.factSetHash)
  {
    hide CandidateJson, DecisionText, ProofRules;
  }

  lemma QuestionInPayload(k: Compiled, c: Candidate)
    ensures ProofPayload(k, c).Obj? && |ProofPayload(k, c).fields| == 13
    ensures var x := ProofPayload(k, c).fields;
      && x[1].value == Str(k.session.session) && x[2].value == Str(k.intent.tool) && x[3].value == Str(k.intent.scope)
      && x[4].value == Str(k.intent.resource) && x[7].value == Strings(k.facts) && x[8].value == Strings(k.contextPath)
  {
    hide CandidateJson, DecisionText, ProofRules, Strings;
  }

  lemma TextAgrees(x: seq<Field>, y: seq<Field>, n: nat, a: string, b: string)
    requires n < |x| && n < |y| && x[n].value == Str(a) && y[n].value == Str(b)
    ensures AgreeAt(x, y, n) <==> a == b
  {
  }

  lemma DecisionTextsDiffer(c: Decision, d: Decision)
    ensures DecisionText(c) == DecisionText(d) <==> c == d
  {
  }

  const RULE_NAMES: seq<string> := [
    "deny_low_trust", "deny_direct_secret_read", "deny_secret_exposure", "deny_bulk_export", "deny_goal_expansion",
    "deny_admin_scope", "deny_external_write", "deny_unreified_recipe_hit", "deny_missing_context_path", "deny_no_delegation",
    "deny_wrong_team", "deny_unpredicted_tool", "deny_schema_invalid", "repair_schema_args", "escalate_low_trust_external",
    "allow_current_grant", "auto_approve_recipe_scope", "escalate_human_required_scope", "deny_default"]

  /** The length of each name, and its sixth letter. */
  const NAME_SIGNS: seq<(int, char)> := [
    (14, 'l'), (23, 'd'), (20, 's'), (16, 'b'), (19, 'g'), (16, 'a'), (19, 'e'), (25, 'u'), (25, 'm'), (18, 'n'),
    (15, 'w'), (21, 'u'), (19, 's'), (18, 'r'), (27, 'a'), (19, '_'), (25, 'a'), (29, 'a'), (12, 'd')]

  predicate Signed(name: string, sign: (int, char)) {
    |name| == sign.0 && |name| > 5 && name[5] == sign.1
  }

  lemma NamesAreSigned()
    ensures |RULE_NAMES| == |NAME_SIGNS| && forall n :: 0 <= n < |RULE_NAMES| ==> Signed(RULE_NAMES[n], NAME_SIGNS[n])
  {
  }

  lemma SignsDiffer()
    ensures forall m, n :: 0 <= m < n < |NAME_SIGNS| ==> NAME_SIGNS[m] != NAME_SIGNS[n]
  {
  }

  lemma RuleNamesDiffer()
    ensures Differ(RULE_NAMES)
  {
    hide RULE_NAMES, NAME_SIGNS;
    NamesAreSigned();
    SignsDiffer();
    forall m, n | 0 <= m < n < |RULE_NAMES| ensures RULE_NAMES[m] != RULE_NAMES[n] {
      assert Signed(RULE_NAMES[m], NAME_SIGNS[m]) && Signed(RULE_NAMES[n], NAME_SIGNS[n]);
    }
  }

  lemma RuleIsNamed(rule: Rule) returns (n: nat)
    ensures n < |BY_PRECEDENCE| == |RULE_NAMES| && BY_PRECEDENCE[n] == rule && RuleText(rule) == RULE_NAMES[n]
  {
    n := match rule
      case DenyLowTrust => 0
      case DenyDirectSecretRead => 1
      case DenySecretExposure => 2
      case DenyBulkExport => 3
      case DenyGoalExpansion => 4
      case DenyAdminScope => 5
      case DenyExternalWrite => 6
      case DenyUnreifiedRecipeHit => 7
      case DenyMissingContextPath => 8
      case DenyNoDelegation => 9
      case DenyWrongTeam => 10
      case DenyUnpredictedTool => 11
      case DenySchemaInvalid => 12
      case RepairSchemaArgs => 13
      case EscalateLowTrustExternal => 14
      case AllowCurrentGrant => 15
      case AutoApproveRecipeScope => 16
      case EscalateHumanRequiredScope => 17
      case DenyDefault => 18;
  }

  lemma RuleTextsDiffer(a: Rule, b: Rule)
    ensures RuleText(a) == RuleText(b) <==> a == b
  {
    hide RuleText, RULE_NAMES;
    RuleNamesDiffer();
    var m := RuleIsNamed(a);
    var n := RuleIsNamed(b);
    NamesTell(RULE_NAMES, m, n);
  }

  /** Lists of premises of different rules differ. */
  lemma PremisesTellRule(a: Rule, b: Rule)
    ensures ProofRules(a) == ProofRules(b) <==> a == b
  {
    hide RuleText;
    RuleTextsDiffer(a, b);
    if |ProofRules(a)| == 3 && |ProofRules(b)| == 3 {
      assert ProofRules(a)[0] == RuleText(a) && ProofRules(b)[0] == RuleText(b);
    } else if |ProofRules(a)| == 6 && |ProofRules(b)| == 6 {
      assert ProofRules(a)[2] == (if a == EscalateHumanRequiredScope then "recipe_predicts_scope" else "same_team_resource");
      assert ProofRules(b)[2] == (if b == EscalateHumanRequiredScope then "recipe_predicts_scope" else "same_team_resource");
      assert "recipe_predicts_scope"[0] != "same_team_resource"[0];
    }
  }

  /** Equal proof hashes seal one decision, on one question, by one rule, from the same facts, path and commits. */
  lemma EqualProofsEqualDecisions(sha: Value -> string, k: Compiled, l: Compiled, c: Candidate, d: Candidate)
    requires PerfectHash(sha) && Sealed(sha, k, c).proofHash == Sealed(sha, l, d).proofHash
    ensures c.decision == d.decision && c.reason == d.reason && c.rule == d.rule
    ensures k.session.session == l.session.session && k.intent.tool == l.intent.tool && k.intent.resource == l.intent.resource
    ensures k.intent.scope == l.intent.scope && k.facts == l.facts && k.contextPath == l.contextPath
    ensures k.doltCommit == l.doltCommit && k.recipeIndexCommit == l.recipeIndexCommit && k.factSetHash == l.factSetHash
  {
    hide ProofPayload, SortKeys, Named, AgreeAt, Strings, DecisionText, ProofRules;
    ProofNamesDiffer();
    PayloadNamed(k, c);
    PayloadNamed(l, d);
    var x, y := ProofPayload(k, c).fields, ProofPayload(l, d).fields;
    NamedAgree(x, y, PROOF_NAMES);
    AnswerInPayload(k, c);
    AnswerInPayload(l, d);
    QuestionInPayload(k, c);
    QuestionInPayload(l, d);
    assert forall n :: 0 <= n < 13 ==> AgreeAt(x, y, n);
    DecisionTextsDiffer(c.decision, d.decision);
    PremisesTellRule(c.rule, d.rule);
    TextAgrees(x, y, 0, DecisionText(c.decision), DecisionText(d.decision));
    TextAgrees(x, y, 1, k.session.session, l.session.session);
    TextAgrees(x, y, 2, k.intent.tool, l.intent.tool);
    TextAgrees(x, y, 3, k.intent.scope, l.intent.scope);
    TextAgrees(x, y, 4, k.intent.resource, l.intent.resource);
    TextAgrees(x, y, 5, c.reason, d.reason);
    StringsAgree(x, y, 6, ProofRules(c.rule), ProofRules(d.rule));
    StringsAgree(x, y, 7, k.facts, l.facts);
    StringsAgree(x, y, 8, k.contextPath, l.contextPath);
    TextAgrees(x, y, 9, k.doltCommit, l.doltCommit);
    TextAgrees(x, y, 10, k.recipeIndexCommit, l.recipeIndexCommit);
    TextAgrees(x, y, 12, k.factSetHash, l.factSetHash);
  }
}
