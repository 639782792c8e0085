/** `_evaluate_with_python` (platform/cozo_policy.py): the imperative evaluator of the same policy. */
module PolicyPython {
  import opened Wrappers
  import opened PolicyTable
  import opened PolicyRows

  /** The rows that the evaluator indexes with `[0]` must exist. */
  predicate Indexable(rows: Rows) {
    && rows.session != [] && rows.requestedTool != [] && rows.requestedResource != []
    && rows.toolScope != [] && rows.resource != [] && rows.schemaState != []
  }

  /** `next((row[2] for row in rows["recipe_scope"] if row[1] == scope), None)` */
  function FirstMode(rows: seq<RecipeScopeRow>, scope: string): Option<string> {
    if rows == [] then None
    else if rows[0].scope == scope then Some(rows[0].approvalMode)
    else FirstMode(rows[1..], scope)
  }

  // The `any(...)` tests of the evaluator.

  predicate RequiresCredential(rows: seq<CredentialRequiredRow>, tool: string) {
    exists r :: r in rows && r.tool == tool
  }

  predicate BindsCredential(rows: seq<BindingRow>, tool: string, scope: string) {
    exists b :: b in rows && b.tool == tool && b.scope == scope && b.refStatus == "active" && !b.exposesSecret
  }

  predicate PredictsTool(rows: seq<RecipeToolRow>, tool: string) {
    exists r :: r in rows && r.tool == tool
  }

  predicate PredictsScope(rows: seq<RecipeScopeRow>, scope: string) {
    exists r :: r in rows && r.scope == scope
  }

  predicate Flagged(rows: seq<FlagRow>, name: string) {
    exists f :: f in rows && f.name == name && f.value
  }

  function Kinds(rows: seq<ViolationRow>): set<string> {
    set v <- rows :: v.kind
  }

  predicate HasUnreified(rows: seq<SimilarRow>) {
    exists r :: r in rows && !r.reified
  }

  /** What the evaluator reads out of the rows before it decides anything. */
  function ReadSignals(rows: Rows): Signals
    requires Indexable(rows)
  {
    var session := rows.session[0];
    var tool := rows.requestedTool[0].tool;
    var resource := rows.requestedResource[0].resource;
    var ts := rows.toolScope[0];
    var r := rows.resource[0];
    var credentialRequired := RequiresCredential(rows.credentialRequired, tool);
    var credentialBound := BindsCredential(rows.credentialBinding, tool, ts.scope);
    var trusted := rows.agentTrust == [];
    Signals(
      schemaValid := rows.schemaState[0].valid,
      schemaRepairable := rows.schemaState[0].repairable,
      delegated := DelegationRow(session.session, session.user, session.agent) in rows.delegation,
      belowMinimum := !trusted && rows.agentTrust[0].belowMinimum,
      belowSensitive := !trusted && rows.agentTrust[0].belowSensitive,
      sameTeam := session.team == r.team,
      predictsTool := PredictsTool(rows.recipeTool, tool),
      predictsScope := PredictsScope(rows.recipeScope, ts.scope),
      approvalMode := FirstMode(rows.recipeScope, ts.scope),
      externalWrite := r.external && ts.accessKind == "write",
      externalWritePredicted := Flagged(rows.policyFlag, "external_write_predicted"),
      adminScope := ts.scope in ADMIN_SCOPES,
      breakGlass := Flagged(rows.policyFlag, "break_glass"),
      violations := Kinds(rows.violation),
      unreifiedHit := HasUnreified(rows.similarRecipe),
      snapshotPresent := Flagged(rows.policyFlag, "context_snapshot_present"),
      memoryConsistent := rows.contextPath != [],
      grantPresent := GrantRow(session.session, ts.scope, resource) in rows.currentGrant,
      safeToAutomate := LowStakes(ts.risk, r.sensitivity, r.external) && (!credentialRequired || credentialBound))
  }

  /** A hard deny and the reason given for it. */
  datatype Denial = Denial(reason: string, rule: Rule)

  /** One conditional `hard_denies.append(...)`. */
  function Push(rule: Rule, s: Signals, denials: seq<Denial>): seq<Denial> {
    if IsHardDeny(rule) && HardFires(rule, s) then denials + [Denial(Reason(rule), rule)] else denials
  }

  function PushAll(rules: seq<Rule>, s: Signals): seq<Denial> {
    if rules == [] then [] else Push(rules[|rules| - 1], s, PushAll(rules[..|rules| - 1], s))
  }

  /** The order of the tests in the source. */
  const SOURCE_ORDER: seq<Rule> := [
    DenySchemaInvalid, DenyNoDelegation, DenyLowTrust, DenyWrongTeam, DenyUnpredictedTool, DenyExternalWrite,
    DenyAdminScope, DenyDirectSecretRead, DenySecretExposure, DenyBulkExport, DenyGoalExpansion, DenyUnreifiedRecipeHit,
    DenyMissingContextPath]

  lemma PushNext(k: nat, s: Signals)
    requires k < |SOURCE_ORDER|
    ensures PushAll(SOURCE_ORDER[..k + 1], s) == Push(SOURCE_ORDER[k], s, PushAll(SOURCE_ORDER[..k], s))
  {
    assert SOURCE_ORDER[..k + 1][..k] == SOURCE_ORDER[..k];
  }

  /** The first two tests. */
  method SchemaDenies(s: Signals, before: seq<Denial>) returns (hardDenies: seq<Denial>)
    requires before == PushAll(SOURCE_ORDER[..0], s)
    ensures hardDenies == PushAll(SOURCE_ORDER[..2], s)
  {
    hide PushAll;
    hardDenies := before;
    if !s.schemaValid && !s.schemaRepairable {
      hardDenies := hardDenies + [Denial("schema invalid and not safely repairable", DenySchemaInvalid)];
    }
    PushNext(0, s);
    if !s.delegated {
      hardDenies := hardDenies + [Denial("no delegation for agent on session", DenyNoDelegation)];
    }
    PushNext(1, s);
  }

  /** The next two. */
  method TrustDenies(s: Signals, before: seq<Denial>) returns (hardDenies: seq<Denial>)
    requires before == PushAll(SOURCE_ORDER[..2], s)
    ensures hardDenies == PushAll(SOURCE_ORDER[..4], s)
  {
    hide PushAll;
    hardDenies := before;
    if s.belowMinimum {
      hardDenies := hardDenies + [Denial("agent trust score below minimum", DenyLowTrust)];
    }
    PushNext(2, s);
    if !s.sameTeam {
      hardDenies := hardDenies + [Denial("resource not owned by session team", DenyWrongTeam)];
    }
    PushNext(3, s);
  }

  /** The next three. */
  method RecipeAndScopeDenies(s: Signals, before: seq<Denial>) returns (hardDenies: seq<Denial>)
    requires before == PushAll(SOURCE_ORDER[..4], s)
    ensures hardDenies == PushAll(SOURCE_ORDER[..7], s)
  {
    hide PushAll;
    hardDenies := before;
    if s.schemaValid && !s.predictsTool {
      hardDenies := hardDenies + [Denial("recipe did not predict this tool", DenyUnpredictedTool)];
    }
    PushNext(4, s);
    if s.externalWrite && !s.externalWritePredicted && !LowTrustExternalWrite(s) {
      hardDenies := hardDenies + [Denial("external write not predicted as safe", DenyExternalWrite)];
    }
    PushNext(5, s);
    if s.adminScope && !s.breakGlass {
      hardDenies := hardDenies + [Denial("admin scope requires break-glass approval", DenyAdminScope)];
    }
    PushNext(6, s);
  }

  /** The two tests about secrets. */
  method SecretDenies(s: Signals, before: seq<Denial>) returns (hardDenies: seq<Denial>)
    requires before == PushAll(SOURCE_ORDER[..7], s)
    ensures hardDenies == PushAll(SOURCE_ORDER[..9], s)
  {
    hide PushAll;
    hardDenies := before;
    if "direct_secret_read" in s.violations {
      hardDenies := hardDenies + [Denial("direct password-manager secret read bypasses broker", DenyDirectSecretRead)];
    }
    PushNext(7, s);
    if "secret_exposure" in s.violations {
      hardDenies := hardDenies + [Denial("request would expose secret material to the agent", DenySecretExposure)];
    }
    PushNext(8, s);
  }

  /** The two tests about exports and goals. */
  method ScopeCreepDenies(s: Signals, before: seq<Denial>) returns (hardDenies: seq<Denial>)
    requires before == PushAll(SOURCE_ORDER[..9], s)
    ensures hardDenies == PushAll(SOURCE_ORDER[..11], s)
  {
    hide PushAll;
    hardDenies := before;
    if "bulk_export" in s.violations {
      hardDenies := hardDenies + [Denial("request attempts bulk export of protected data", DenyBulkExport)];
    }
    PushNext(9, s);
    if "goal_expansion" in s.violations {
      hardDenies := hardDenies + [Denial("tool output attempted to expand the signed session goal", DenyGoalExpansion)];
    }
    PushNext(10, s);
  }

  /** The last two. */
  method ContextDenies(s: Signals, before: seq<Denial>) returns (hardDenies: seq<Denial>)
    requires before == PushAll(SOURCE_ORDER[..11], s)
    ensures hardDenies == PushAll(SOURCE_ORDER[..13], s)
  {
    hide PushAll;
    hardDenies := before;
    if s.unreifiedHit {
      hardDenies := hardDenies + [Denial("recipe retrieval hit was not reified against Dolt commit", DenyUnreifiedRecipeHit)];
    }
    PushNext(11, s);
    if s.snapshotPresent && !s.memoryConsistent {
      hardDenies := hardDenies + [Denial("missing context path for graph-backed decision", DenyMissingContextPath)];
    }
    PushNext(12, s);
  }

  method CollectHardDenies(s: Signals) returns (hardDenies: seq<Denial>)
    ensures hardDenies == PushAll(SOURCE_ORDER, s)
  {
    hardDenies := SchemaDenies(s, []);
    hardDenies := TrustDenies(s, hardDenies);
    hardDenies := RecipeAndScopeDenies(s, hardDenies);
    hardDenies := SecretDenies(s, hardDenies);
    hardDenies := ScopeCreepDenies(s, hardDenies);
    hardDenies := ContextDenies(s, hardDenies);
    assert SOURCE_ORDER[..13] == SOURCE_ORDER;
  }

  /** A denial is in the list exactly when its rule is among the tests and fires. */
  lemma {:induction false} PushAllMembers(rules: seq<Rule>, s: Signals, d: Denial)
    ensures d in PushAll(rules, s) <==> d.rule in rules && IsHardDeny(d.rule) && HardFires(d.rule, s) && d.reason == Reason(d.rule)
  {
    if rules != [] {
      var k := |rules| - 1;
      PushAllMembers(rules[..k], s, d);
      assert d.rule in rules <==> d.rule in rules[..k] || d.rule == rules[k];
      assert d == Denial(Reason(rules[k]), rules[k]) <==> d.rule == rules[k] && d.reason == Reason(rules[k]);
    }
  }

  lemma SourceOrderIsComplete(rule: Rule)
    ensures rule in SOURCE_ORDER <==> IsHardDeny(rule)
  {
  }

  /** Whether a candidate list holds exactly the outcomes of the rules that fire. */
  ghost predicate ListsFiring(candidates: seq<Candidate>, s: Signals) {
    forall c :: c in candidates <==> Fires(c.rule, s) && c == Outcome(c.rule)
  }

  /** `max(candidates, key=precedence)`: the first of the highest candidates. */
  method MaxByPrecedence(candidates: seq<Candidate>) returns (selected: Candidate)
    requires candidates != []
    ensures selected in candidates
    ensures forall c :: c in candidates ==> c.precedence <= selected.precedence
  {
    selected := candidates[0];
    for k := 1 to |candidates|
      invariant selected in candidates
      invariant forall j :: 0 <= j < k ==> candidates[j].precedence <= selected.precedence
    {
      if candidates[k].precedence > selected.precedence {
        selected := candidates[k];
      }
    }
  }

  /** The loop that turns the hard denies into candidates. */
  method AddHardDenies(hardDenies: seq<Denial>) returns (candidates: seq<Candidate>)
    ensures |candidates| == |hardDenies|
    ensures forall k :: 0 <= k < |candidates| ==>
              candidates[k] == Candidate(Deny, Precedence(hardDenies[k].rule), hardDenies[k].reason, hardDenies[k].rule)
  {
    candidates := [];
    for k := 0 to |hardDenies|
      invariant |candidates| == k
      invariant forall j :: 0 <= j < k ==>
        candidates[j] == Candidate(Deny, Precedence(hardDenies[j].rule), hardDenies[j].reason, hardDenies[j].rule)
    {
      candidates := candidates + [Candidate(Deny, Precedence(hardDenies[k].rule), hardDenies[k].reason, hardDenies[k].rule)];
    }
  }

  /** The five candidates that a hard deny suppresses, and the default. */
  method AddOthers(s: Signals, noHardDeny: bool, before: seq<Candidate>) returns (candidates: seq<Candidate>)
    requires noHardDeny <==> !HardDenied(s)
    ensures forall c :: c in candidates <==> c in before || (!IsHardDeny(c.rule) && Fires(c.rule, s) && c == Outcome(c.rule))
  {
    hide HardDenied, Fires, Outcome;
    candidates := AddRepairAndEscalation(s, noHardDeny, before);
    candidates := AddGrantPath(s, noHardDeny, candidates);
    candidates := AddRecipePaths(s, noHardDeny, candidates);
    candidates := AddDefault(s, candidates);
  }

  method AddDefault(s: Signals, before: seq<Candidate>) returns (candidates: seq<Candidate>)
    ensures forall c :: c in candidates <==> c in before || (c.rule == DenyDefault && Fires(c.rule, s) && c == Outcome(c.rule))
  {
    hide HardDenied, HardFires, SoftFires;
    candidates := before + [Candidate(Deny, 10, "no grant, auto-approval, or human approval path matched", DenyDefault)];
  }

  method AddRepairAndEscalation(s: Signals, noHardDeny: bool, before: seq<Candidate>) returns (candidates: seq<Candidate>)
    requires noHardDeny <==> !HardDenied(s)
    ensures forall c :: c in candidates <==>
              c in before || (c.rule in {RepairSchemaArgs, EscalateLowTrustExternal} && Fires(c.rule, s) && c == Outcome(c.rule))
  {
    hide HardDenied, HardFires;
    candidates := before;
    if noHardDeny && !s.schemaValid && s.schemaRepairable {
      candidates := candidates + [Candidate(Repair, 80, "tool arguments can be safely repaired", RepairSchemaArgs)];
    }
    if noHardDeny && s.schemaValid && s.predictsTool && s.sameTeam && LowTrustExternalWrite(s) {
      candidates := candidates + [Candidate(EscalateHuman, 75, "external write requires higher agent trust", EscalateLowTrustExternal)];
    }
  }

  method AddGrantPath(s: Signals, noHardDeny: bool, before: seq<Candidate>) returns (candidates: seq<Candidate>)
    requires noHardDeny <==> !HardDenied(s)
    ensures forall c :: c in candidates <==> c in before || (c.rule == AllowCurrentGrant && Fires(c.rule, s) && c == Outcome(c.rule))
  {
    hide HardDenied, HardFires;
    candidates := before;
    if noHardDeny && s.schemaValid && s.grantPresent && s.sameTeam && s.predictsTool && s.memoryConsistent {
      candidates := candidates + [Candidate(Allow, 70, "grant exists for scope@resource", AllowCurrentGrant)];
    }
  }

  method AddRecipePaths(s: Signals, noHardDeny: bool, before: seq<Candidate>) returns (candidates: seq<Candidate>)
    requires noHardDeny <==> !HardDenied(s)
    ensures forall c :: c in candidates <==>
              c in before || (c.rule in {AutoApproveRecipeScope, EscalateHumanRequiredScope} && Fires(c.rule, s) && c == Outcome(c.rule))
  {
    hide HardDenied, HardFires;
    candidates := before;
    if noHardDeny && s.schemaValid && !s.grantPresent && s.predictsTool && s.predictsScope
       && s.approvalMode == Some("auto_approve") && s.sameTeam && s.safeToAutomate {
      candidates := candidates
        + [Candidate(AutoApprove, 60, "accepted recipe auto-approves a bounded ephemeral grant", AutoApproveRecipeScope)];
    }
    if noHardDeny && s.schemaValid && !s.grantPresent && s.predictsTool && s.predictsScope
       && s.approvalMode == Some("human_required") && s.sameTeam && s.memoryConsistent {
      candidates := candidates + [Candidate(EscalateHuman, 50, "scope requires human approval", EscalateHumanRequiredScope)];
    }
  }

  /** The evaluator: it lists exactly the rules that fire, and selects the one of highest precedence. */
  method EvaluateWithPython(rows: Rows) returns (selected: Candidate, candidates: seq<Candidate>)
    requires Indexable(rows)
    ensures ListsFiring(candidates, ReadSignals(rows))
    ensures selected == Outcome(Winner(ReadSignals(rows)))
  {
    var s := ReadSignals(rows);
    var hardDenies := CollectHardDenies(s);
    candidates := AddHardDenies(hardDenies);
    HardCandidates(s, hardDenies, candidates);
    candidates := AddOthers(s, hardDenies == [], candidates);
    assert ListsFiring(candidates, s);
    selected := SelectWinner(s, candidates);
  }

  method SelectWinner(s: Signals, candidates: seq<Candidate>) returns (selected: Candidate)
    requires ListsFiring(candidates, s)
    ensures selected == Outcome(Winner(s))
  {
    hide Fires, Winner;
    DefaultFires(s);
    WinnerIsMaximal(s, DenyDefault);
    assert Outcome(Winner(s)) in candidates;
    selected := MaxByPrecedence(candidates);
    WinnerIsMaximal(s, selected.rule);
  }

  lemma DefaultFires(s: Signals)
    ensures Fires(DenyDefault, s)
  {
  }

  /** The candidates made from the hard denies are the outcomes of the hard denies that fire. */
  lemma HardCandidates(s: Signals, hardDenies: seq<Denial>, candidates: seq<Candidate>)
    requires hardDenies == PushAll(SOURCE_ORDER, s)
    requires |candidates| == |hardDenies|
    requires forall k :: 0 <= k < |candidates| ==>
               candidates[k] == Candidate(Deny, Precedence(hardDenies[k].rule), hardDenies[k].reason, hardDenies[k].rule)
    ensures forall c :: c in candidates <==> IsHardDeny(c.rule) && HardFires(c.rule, s) && c == Outcome(c.rule)
    ensures hardDenies == [] <==> !HardDenied(s)
  {
    hide PushAll, HardFires;
    forall c ensures c in candidates <==> IsHardDeny(c.rule) && HardFires(c.rule, s) && c == Outcome(c.rule) {
      SourceOrderIsComplete(c.rule);
      PushAllMembers(SOURCE_ORDER, s, Denial(Reason(c.rule), c.rule));
      forall k | 0 <= k < |candidates| && candidates[k] == c
        ensures IsHardDeny(c.rule) && HardFires(c.rule, s) && c == Outcome(c.rule)
      {
        assert hardDenies[k] in hardDenies;
        PushAllMembers(SOURCE_ORDER, s, hardDenies[k]);
      }
      if IsHardDeny(c.rule) && HardFires(c.rule, s) && c == Outcome(c.rule) {
        var k :| 0 <= k < |hardDenies| && hardDenies[k] == Denial(Reason(c.rule), c.rule);
        assert candidates[k] == c;
      }
    }
    forall rule | IsHardDeny(rule) && HardFires(rule, s) ensures hardDenies != [] {
      assert Outcome(rule) in candidates;
    }
    if hardDenies != [] {
      assert candidates[0] in candidates;
    }
  }
}
