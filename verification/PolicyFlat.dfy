/**
 * The policy on one page: the answer of the rule text to a compiled fact set as one chain of tests on the values that
 * the compiler read. The nineteen rules, their negations and their precedences are resolved.
 */
module PolicyFlat {
  import opened Wrappers
  import opened PolicyTable
  import opened PolicyRows
  import opened PolicyDatalog
  import opened PolicyDatalogTable
  import opened PolicyTheorems

  /** The agent's score is known and lies below the bound. */
  predicate Below(i: Inputs, bound: int) {
    i.trust.Some? && i.trust.value < bound
  }

  predicate WritesOutside(i: Inputs) {
    i.external && i.accessKind == "write"
  }

  /** A known recipe predicts the tool, and its hit is reified with a score of at least 0.82. */
  predicate Foreseen(i: Inputs) {
    i.recipePredictsTool && i.recipe != "recipe_unknown" && i.reified && i.score >= 820
  }

  /** No credential is required, or an active binding for the tool and the scope keeps it from the agent. */
  predicate CredentialKept(i: Inputs) {
    i.credentialClass.Some? ==>
      i.binding.Some? && i.binding.value.tool == i.tool && i.binding.value.scope == i.scope
      && i.binding.value.refStatus == "active" && !i.binding.value.exposesSecret
  }

  /** The objection of a hard deny. */
  predicate Objects(rule: Rule, i: Inputs) {
    match rule
    case DenyLowTrust => Below(i, i.thresholds.minimum)
    case DenyDirectSecretRead => "direct_secret_read" in i.violations
    case DenySecretExposure => "secret_exposure" in i.violations
    case DenyBulkExport => "bulk_export" in i.violations
    case DenyGoalExpansion => "goal_expansion" in i.violations
    case DenyAdminScope => i.scope in {"admin", "linear:admin", "slack:admin", "scopememory:admin"} && i.breakGlass != Some(true)
    case DenyExternalWrite => WritesOutside(i) && i.externalWritePredicted != Some(true) && !Below(i, i.thresholds.sensitive)
    case DenyUnreifiedRecipeHit => i.recipe != "recipe_unknown" && !i.reified
    case DenyMissingContextPath => i.snapshotPresent && i.contextPath == []
    case DenyNoDelegation => !i.delegationPresent
    case DenyWrongTeam => i.team != i.resourceTeam
    case DenyUnpredictedTool => i.schemaValid && !Foreseen(i)
    case DenySchemaInvalid => !i.schemaValid && !i.schemaRepairable
    case _ => false
  }

  /** The case for a soft rule, when nothing objects. */
  predicate Speaks(rule: Rule, i: Inputs) {
    match rule
    case RepairSchemaArgs => !i.schemaValid
    case EscalateLowTrustExternal => i.schemaValid && WritesOutside(i) && Below(i, i.thresholds.sensitive)
    case AllowCurrentGrant => i.schemaValid && i.grantPresent && i.contextPath != []
    case AutoApproveRecipeScope =>
      && i.schemaValid && !i.grantPresent && i.approvalMode == Some("auto_approve") && i.risk in {"low", "medium"}
      && !i.external && i.sensitivity in {"low", "normal"} && CredentialKept(i)
    case EscalateHumanRequiredScope =>
      i.schemaValid && !i.grantPresent && i.approvalMode == Some("human_required") && i.contextPath != []
    case _ => false
  }

  /** The weightiest objection. */
  function FirstObjection(i: Inputs): Option<Rule> {
    if Objects(DenyLowTrust, i) then Some(DenyLowTrust)
    else if Objects(DenyDirectSecretRead, i) then Some(DenyDirectSecretRead)
    else if Objects(DenySecretExposure, i) then Some(DenySecretExposure)
    else if Objects(DenyBulkExport, i) then Some(DenyBulkExport)
    else if Objects(DenyGoalExpansion, i) then Some(DenyGoalExpansion)
    else if Objects(DenyAdminScope, i) then Some(DenyAdminScope)
    else if Objects(DenyExternalWrite, i) then Some(DenyExternalWrite)
    else if Objects(DenyUnreifiedRecipeHit, i) then Some(DenyUnreifiedRecipeHit)
    else if Objects(DenyMissingContextPath, i) then Some(DenyMissingContextPath)
    else if Objects(DenyNoDelegation, i) then Some(DenyNoDelegation)
    else if Objects(DenyWrongTeam, i) then Some(DenyWrongTeam)
    else if Objects(DenyUnpredictedTool, i) then Some(DenyUnpredictedTool)
    else if Objects(DenySchemaInvalid, i) then Some(DenySchemaInvalid)
    else None
  }

  /** Without an objection: repair, escalate, allow, approve or ask, in this order; else deny. */
  function FirstCase(i: Inputs): Rule {
    if Speaks(RepairSchemaArgs, i) then RepairSchemaArgs
    else if Speaks(EscalateLowTrustExternal, i) then EscalateLowTrustExternal
    else if Speaks(AllowCurrentGrant, i) then AllowCurrentGrant
    else if Speaks(AutoApproveRecipeScope, i) then AutoApproveRecipeScope
    else if Speaks(EscalateHumanRequiredScope, i) then EscalateHumanRequiredScope
    else DenyDefault
  }

  function FlatRule(i: Inputs): Rule {
    FirstObjection(i).GetOr(FirstCase(i))
  }

  /** What a rule answers: its decision, its precedence and its words. */
  function Row(rule: Rule): Candidate {
    match rule
    case DenyLowTrust => Candidate(Deny, 110, "agent trust score below minimum", rule)
    case DenyDirectSecretRead => Candidate(Deny, 109, "direct password-manager secret read bypasses broker", rule)
    case DenySecretExposure => Candidate(Deny, 108, "request would expose secret material to the agent", rule)
    case DenyBulkExport => Candidate(Deny, 107, "request attempts bulk export of protected data", rule)
    case DenyGoalExpansion => Candidate(Deny, 106, "tool output attempted to expand the signed session goal", rule)
    case DenyAdminScope => Candidate(Deny, 105, "admin scope requires break-glass approval", rule)
    case DenyExternalWrite => Candidate(Deny, 104, "external write not predicted as safe", rule)
    case DenyUnreifiedRecipeHit => Candidate(Deny, 103, "recipe retrieval hit was not reified against Dolt commit", rule)
    case DenyMissingContextPath => Candidate(Deny, 102, "missing context path for graph-backed decision", rule)
    case DenyNoDelegation => Candidate(Deny, 101, "no delegation for agent on session", rule)
    case DenyWrongTeam => Candidate(Deny, 100, "resource not owned by session team", rule)
    case DenyUnpredictedTool => Candidate(Deny, 99, "recipe did not predict this tool", rule)
    case DenySchemaInvalid => Candidate(Deny, 98, "schema invalid and not safely repairable", rule)
    case RepairSchemaArgs => Candidate(Repair, 80, "tool arguments can be safely repaired", rule)
    case EscalateLowTrustExternal => Candidate(EscalateHuman, 75, "external write requires higher agent trust", rule)
    case AllowCurrentGrant => Candidate(Allow, 70, "grant exists for scope@resource", rule)
    case AutoApproveRecipeScope => Candidate(AutoApprove, 60, "accepted recipe auto-approves a bounded ephemeral grant", rule)
    case EscalateHumanRequiredScope => Candidate(EscalateHuman, 50, "scope requires human approval", rule)
    case DenyDefault => Candidate(Deny, 10, "no grant, auto-approval, or human approval path matched", rule)
  }

  // ---- The tests are the conditions of the rules ----

  lemma ObjectsIff(rule: Rule, i: Inputs)
    requires IsHardDeny(rule)
    ensures Objects(rule, i) <==> HardFires(rule, DatalogSignals(i))
  {
    hide SafeToAutomate;
  }

  lemma SpeaksIff(rule: Rule, i: Inputs)
    requires forall deny :: !Objects(deny, i)
    ensures Speaks(rule, i) <==> SoftFires(rule, DatalogSignals(i))
  {
    assert !Objects(DenyUnpredictedTool, i) && !Objects(DenyWrongTeam, i) && !Objects(DenySchemaInvalid, i);
    hide Objects;
  }

  lemma OnlyDeniesObject(rule: Rule, i: Inputs)
    ensures Objects(rule, i) ==> IsHardDeny(rule)
  {
    hide Below, WritesOutside, Foreseen;
  }

  lemma OnlySoftSpeaks(rule: Rule, i: Inputs)
    ensures Speaks(rule, i) ==> rule.RepairSchemaArgs? || rule.EscalateLowTrustExternal? || rule.AllowCurrentGrant?
                                || rule.AutoApproveRecipeScope? || rule.EscalateHumanRequiredScope?
  {
    hide WritesOutside, Below, CredentialKept;
  }

  /** Nothing that objects outranks the first objection. */
  lemma FirstObjectionIsTop(i: Inputs, rule: Rule)
    requires Objects(rule, i)
    ensures FirstObjection(i).Some? && Precedence(rule) <= Precedence(FirstObjection(i).value)
  {
    OnlyDeniesObject(rule, i);
    hide Objects;
  }

  lemma FirstObjectionObjects(i: Inputs)
    requires FirstObjection(i).Some?
    ensures Objects(FirstObjection(i).value, i) && IsHardDeny(FirstObjection(i).value)
  {
    hide Objects;
  }

  lemma FirstCaseIsTop(i: Inputs, rule: Rule)
    requires Speaks(rule, i)
    ensures Precedence(rule) <= Precedence(FirstCase(i))
  {
    OnlySoftSpeaks(rule, i);
    hide Speaks;
  }

  lemma FirstCaseSpeaks(i: Inputs)
    ensures FirstCase(i).DenyDefault? || Speaks(FirstCase(i), i)
  {
    hide Speaks;
  }

  // ---- The first test that succeeds is the rule that wins ----

  /** A rule that fires and outranks every other that does is the winner. */
  lemma BestFires(s: Signals, rule: Rule)
    requires Fires(rule, s) && forall other :: Fires(other, s) ==> Precedence(other) <= Precedence(rule)
    ensures Winner(s) == rule
  {
    hide Winner, Fires;
    WinnerIsMaximal(s, rule);
  }

  lemma FiresIff(i: Inputs, rule: Rule)
    ensures FirstObjection(i).Some? ==> (Fires(rule, DatalogSignals(i)) <==> Objects(rule, i) || rule.DenyDefault?)
    ensures FirstObjection(i).None? ==> (Fires(rule, DatalogSignals(i)) <==> Speaks(rule, i) || rule.DenyDefault?)
  {
    hide SignalsOf, HardFires, SoftFires, Objects, Speaks, FirstObjection;
    OnlyDeniesObject(rule, i);
    OnlySoftSpeaks(rule, i);
    forall deny | IsHardDeny(deny) ensures Objects(deny, i) <==> HardFires(deny, DatalogSignals(i)) {
      ObjectsIff(deny, i);
    }
    if FirstObjection(i).Some? {
      FirstObjectionObjects(i);
      assert HardDenied(DatalogSignals(i));
    } else {
      forall deny ensures !Objects(deny, i) {
        if Objects(deny, i) {
          FirstObjectionIsTop(i, deny);
        }
      }
      assert !HardDenied(DatalogSignals(i));
      SpeaksIff(rule, i);
    }
  }

  lemma FlatRuleWins(i: Inputs)
    ensures FlatRule(i) == Winner(DatalogSignals(i))
  {
    hide SignalsOf, Fires, Objects, Speaks, FirstObjection, FirstCase, Winner, Precedence;
    var s, rule := DatalogSignals(i), FlatRule(i);
    forall other | Fires(other, s) ensures Precedence(other) <= Precedence(rule) {
      FiresIff(i, other);
      DefaultIsLast(rule);
      if FirstObjection(i).Some? && Objects(other, i) {
        FirstObjectionIsTop(i, other);
      } else if FirstObjection(i).None? && Speaks(other, i) {
        FirstCaseIsTop(i, other);
      }
    }
    FiresIff(i, rule);
    if FirstObjection(i).Some? {
      FirstObjectionObjects(i);
    } else {
      FirstCaseSpeaks(i);
    }
    BestFires(s, rule);
  }

  lemma DefaultIsLast(rule: Rule)
    ensures Precedence(DenyDefault) <= Precedence(rule)
  {
  }

  lemma RowIsOutcome(rule: Rule)
    ensures Row(rule) == Outcome(rule)
  {
  }

  /**
   * The effective row of the Datalog program over the compiled rows is the row of the first test that succeeds, with its
   * decision, its precedence and its words.
   */
  lemma DatalogIsFlat(i: Inputs)
    ensures EffectiveQuery(RowsOf(i)) == {Row(FlatRule(i))}
  {
    hide EffectiveQuery, RowsOf, Winner, SignalsOf, FlatRule, Row, Outcome;
    EffectiveQueryOf(i);
    FlatRuleWins(i);
    RowIsOutcome(FlatRule(i));
  }

  lemma ScoreBlind(i: Inputs)
    ensures PythonResult(i.(score := 1000)) == PythonResult(i)
  {
    hide Winner, SafeToAutomate, ADMIN_SCOPES;
    assert PythonSignals(i.(score := 1000)) == PythonSignals(i) by {
      SafetyIgnoresScore(i);
    }
  }

  lemma SafetyIgnoresScore(i: Inputs)
    ensures SafeToAutomate(i.(score := 1000)) == SafeToAutomate(i)
  {
    hide LowStakes;
  }

  /** The Python evaluator gives the answer that the rule text would give if every recipe hit had a perfect score. */
  lemma PythonIsFlat(i: Inputs)
    ensures PythonResult(i) == Row(FlatRule(i.(score := 1000)))
  {
    hide EffectiveQuery, RowsOf, PythonResult, FlatRule, Row;
    var j := i.(score := 1000);
    ScoreBlind(i);
    AgreeOnGoodScores(j);
    DatalogIsFlat(j);
    assert Row(FlatRule(j)) in {PythonResult(j)};
  }

  lemma RowDecides(rule: Rule)
    ensures Executable(Row(rule).decision) <==> rule.AllowCurrentGrant? || rule.AutoApproveRecipeScope?
  {
    hide Row, Reason;
    RowIsOutcome(rule);
  }

  lemma ExecutesFlat(i: Inputs)
    ensures Executes(i) <==> FirstObjection(i).None? && (FirstCase(i).AllowCurrentGrant? || FirstCase(i).AutoApproveRecipeScope?)
  {
    hide EffectiveQuery, RowsOf, FirstObjection, FirstCase, Objects, Row;
    DatalogIsFlat(i);
    RowDecides(FlatRule(i));
    assert Row(FlatRule(i)) in EffectiveQuery(RowsOf(i));
    if FirstObjection(i).Some? {
      FirstObjectionObjects(i);
    }
  }

  /** Nothing objects, in terms of what the compiler read. */
  lemma NothingObjectsIff(i: Inputs)
    ensures FirstObjection(i).None? <==>
      && !Below(i, i.thresholds.minimum) && i.delegationPresent && i.team == i.resourceTeam
      && (forall v :: v in {"direct_secret_read", "secret_exposure", "bulk_export", "goal_expansion"} ==> v !in i.violations)
      && (i.scope in {"admin", "linear:admin", "slack:admin", "scopememory:admin"} ==> i.breakGlass == Some(true))
      && (WritesOutside(i) ==> i.externalWritePredicted == Some(true) || Below(i, i.thresholds.sensitive))
      && (i.recipe != "recipe_unknown" ==> i.reified) && (i.snapshotPresent ==> i.contextPath != [])
      && (if i.schemaValid then Foreseen(i) else i.schemaRepairable)
  {
    hide Below, WritesOutside, Foreseen;
  }

  /** Exactly when the program lets a call run, in terms of what the compiler read. */
  lemma ExecutesExactlyWhen(i: Inputs)
    ensures Executes(i) <==>
      && i.schemaValid && i.delegationPresent && i.team == i.resourceTeam && Foreseen(i) && !Below(i, i.thresholds.minimum)
      && (forall v :: v in {"direct_secret_read", "secret_exposure", "bulk_export", "goal_expansion"} ==> v !in i.violations)
      && (i.scope in {"admin", "linear:admin", "slack:admin", "scopememory:admin"} ==> i.breakGlass == Some(true))
      && (WritesOutside(i) ==> i.externalWritePredicted == Some(true) && !Below(i, i.thresholds.sensitive))
      && (i.snapshotPresent || i.grantPresent ==> i.contextPath != [])
      && (i.grantPresent
          || (i.approvalMode == Some("auto_approve") && i.risk in {"low", "medium"} && i.sensitivity in {"low", "normal"}
              && !i.external && CredentialKept(i)))
  {
    hide Executes, FirstObjection, Below, WritesOutside, CredentialKept;
    ExecutesFlat(i);
    NothingObjectsIff(i);
  }
}
