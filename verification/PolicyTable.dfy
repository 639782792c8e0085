/**
 * The reference reading of the policy: nineteen rules with distinct precedences, and the truth table that says when
 * each one fires. The Datalog program and the Python evaluator are both compared with it.
 */
module PolicyTable {
  import opened Wrappers

  datatype Decision = Allow | AutoApprove | EscalateHuman | Deny | Repair

  predicate Executable(d: Decision) {
    d == Allow || d == AutoApprove
  }

  datatype Rule =
    | DenyLowTrust | DenyDirectSecretRead | DenySecretExposure | DenyBulkExport | DenyGoalExpansion | DenyAdminScope
    | DenyExternalWrite | DenyUnreifiedRecipeHit | DenyMissingContextPath | DenyNoDelegation | DenyWrongTeam
    | DenyUnpredictedTool | DenySchemaInvalid
    | RepairSchemaArgs | EscalateLowTrustExternal | AllowCurrentGrant | AutoApproveRecipeScope
    | EscalateHumanRequiredScope | DenyDefault

  datatype Candidate = Candidate(decision: Decision, precedence: int, reason: string, rule: Rule)

  /** Precedences: `HARD_DENY_PRECEDENCE`, `PRECEDENCE` and the constants of the rule text. */
  function Precedence(rule: Rule): int {
    match rule
    case DenyLowTrust => 110
    case DenyDirectSecretRead => 109
    case DenySecretExposure => 108
    case DenyBulkExport => 107
    case DenyGoalExpansion => 106
    case DenyAdminScope => 105
    case DenyExternalWrite => 104
    case DenyUnreifiedRecipeHit => 103
    case DenyMissingContextPath => 102
    case DenyNoDelegation => 101
    case DenyWrongTeam => 100
    case DenyUnpredictedTool => 99
    case DenySchemaInvalid => 98
    case RepairSchemaArgs => 80
    case EscalateLowTrustExternal => 75
    case AllowCurrentGrant => 70
    case AutoApproveRecipeScope => 60
    case EscalateHumanRequiredScope => 50
    case DenyDefault => 10
  }

  function DecisionOf(rule: Rule): Decision {
    match rule
    case RepairSchemaArgs => Repair
    case EscalateLowTrustExternal => EscalateHuman
    case AllowCurrentGrant => Allow
    case AutoApproveRecipeScope => AutoApprove
    case EscalateHumanRequiredScope => EscalateHuman
    case _ => Deny
  }

  function Reason(rule: Rule): string {
    match rule
    case DenyLowTrust => "agent trust score below minimum"
    case DenyDirectSecretRead => "direct password-manager secret read bypasses broker"
    case DenySecretExposure => "request would expose secret material to the agent"
    case DenyBulkExport => "request attempts bulk export of protected data"
    case DenyGoalExpansion => "tool output attempted to expand the signed session goal"
    case DenyAdminScope => "admin scope requires break-glass approval"
    case DenyExternalWrite => "external write not predicted as safe"
    case DenyUnreifiedRecipeHit => "recipe retrieval hit was not reified against Dolt commit"
    case DenyMissingContextPath => "missing context path for graph-backed decision"
    case DenyNoDelegation => "no delegation for agent on session"
    case DenyWrongTeam => "resource not owned by session team"
    case DenyUnpredictedTool => "recipe did not predict this tool"
    case DenySchemaInvalid => "schema invalid and not safely repairable"
    case RepairSchemaArgs => "tool arguments can be safely repaired"
    case EscalateLowTrustExternal => "external write requires higher agent trust"
    case AllowCurrentGrant => "grant exists for scope@resource"
    case AutoApproveRecipeScope => "accepted recipe auto-approves a bounded ephemeral grant"
    case EscalateHumanRequiredScope => "scope requires human approval"
    case DenyDefault => "no grant, auto-approval, or human approval path matched"
  }

  /** The candidate that a rule contributes. */
  function Outcome(rule: Rule): (c: Candidate)
    ensures c.rule == rule
  {
    Candidate(DecisionOf(rule), Precedence(rule), Reason(rule), rule)
  }

  /** What a policy question looks like once its tables have been read. */
  datatype Signals = Signals(
    schemaValid: bool,
    schemaRepairable: bool,
    delegated: bool,
    belowMinimum: bool,
    belowSensitive: bool,
    sameTeam: bool,
    predictsTool: bool,
    predictsScope: bool,
    approvalMode: Option<string>,
    externalWrite: bool,
    externalWritePredicted: bool,
    adminScope: bool,
    breakGlass: bool,
    violations: set<string>,
    unreifiedHit: bool,
    snapshotPresent: bool,
    memoryConsistent: bool,
    grantPresent: bool,
    safeToAutomate: bool)

  predicate LowTrustExternalWrite(s: Signals) {
    s.externalWrite && s.belowSensitive
  }

  predicate IsHardDeny(rule: Rule) {
    rule.DenyLowTrust? || rule.DenyDirectSecretRead? || rule.DenySecretExposure? || rule.DenyBulkExport?
    || rule.DenyGoalExpansion? || rule.DenyAdminScope? || rule.DenyExternalWrite? || rule.DenyUnreifiedRecipeHit?
    || rule.DenyMissingContextPath? || rule.DenyNoDelegation? || rule.DenyWrongTeam? || rule.DenyUnpredictedTool?
    || rule.DenySchemaInvalid?
  }

  /** When a hard deny fires. */
  predicate HardFires(rule: Rule, s: Signals)
    requires IsHardDeny(rule)
  {
    match rule
    case DenyLowTrust => s.belowMinimum
    case DenyDirectSecretRead => "direct_secret_read" in s.violations
    case DenySecretExposure => "secret_exposure" in s.violations
    case DenyBulkExport => "bulk_export" in s.violations
    case DenyGoalExpansion => "goal_expansion" in s.violations
    case DenyAdminScope => s.adminScope && !s.breakGlass
    case DenyExternalWrite => s.externalWrite && !s.externalWritePredicted && !LowTrustExternalWrite(s)
    case DenyUnreifiedRecipeHit => s.unreifiedHit
    case DenyMissingContextPath => s.snapshotPresent && !s.memoryConsistent
    case DenyNoDelegation => !s.delegated
    case DenyWrongTeam => !s.sameTeam
    case DenyUnpredictedTool => s.schemaValid && !s.predictsTool
    case DenySchemaInvalid => !s.schemaValid && !s.schemaRepairable
  }

  predicate HardDenied(s: Signals) {
    exists rule :: IsHardDeny(rule) && HardFires(rule, s)
  }

  /** When one of the other rules fires, provided that no hard deny does. */
  predicate SoftFires(rule: Rule, s: Signals) {
    match rule
    case RepairSchemaArgs => !s.schemaValid && s.schemaRepairable
    case EscalateLowTrustExternal => s.schemaValid && s.predictsTool && s.sameTeam && LowTrustExternalWrite(s)
    case AllowCurrentGrant => s.schemaValid && s.grantPresent && s.sameTeam && s.predictsTool && s.memoryConsistent
    case AutoApproveRecipeScope =>
      s.schemaValid && !s.grantPresent && s.predictsTool && s.predictsScope && s.approvalMode == Some("auto_approve")
      && s.sameTeam && s.safeToAutomate
    case EscalateHumanRequiredScope =>
      s.schemaValid && !s.grantPresent && s.predictsTool && s.predictsScope && s.approvalMode == Some("human_required")
      && s.sameTeam && s.memoryConsistent
    case _ => false
  }

  /** When any rule fires. */
  predicate Fires(rule: Rule, s: Signals) {
    if IsHardDeny(rule) then HardFires(rule, s)
    else rule.DenyDefault? || (!HardDenied(s) && SoftFires(rule, s))
  }

  /** No two rules share a precedence. */
  lemma PrecedenceIsInjective(a: Rule, b: Rule)
    ensures Precedence(a) == Precedence(b) ==> a == b
  {
  }

  /** The first rule that fires, from the highest precedence to the lowest; the default always does. */
  function Top(fires: Rule -> bool): Rule {
    if fires(DenyLowTrust) then DenyLowTrust
    else if fires(DenyDirectSecretRead) then DenyDirectSecretRead
    else if fires(DenySecretExposure) then DenySecretExposure
    else if fires(DenyBulkExport) then DenyBulkExport
    else if fires(DenyGoalExpansion) then DenyGoalExpansion
    else if fires(DenyAdminScope) then DenyAdminScope
    else if fires(DenyExternalWrite) then DenyExternalWrite
    else if fires(DenyUnreifiedRecipeHit) then DenyUnreifiedRecipeHit
    else if fires(DenyMissingContextPath) then DenyMissingContextPath
    else if fires(DenyNoDelegation) then DenyNoDelegation
    else if fires(DenyWrongTeam) then DenyWrongTeam
    else if fires(DenyUnpredictedTool) then DenyUnpredictedTool
    else if fires(DenySchemaInvalid) then DenySchemaInvalid
    else if fires(RepairSchemaArgs) then RepairSchemaArgs
    else if fires(EscalateLowTrustExternal) then EscalateLowTrustExternal
    else if fires(AllowCurrentGrant) then AllowCurrentGrant
    else if fires(AutoApproveRecipeScope) then AutoApproveRecipeScope
    else if fires(EscalateHumanRequiredScope) then EscalateHumanRequiredScope
    else DenyDefault
  }

  lemma TopIsMaximal(fires: Rule -> bool, rule: Rule)
    requires fires(rule) && fires(DenyDefault)
    ensures fires(Top(fires))
    ensures rule == Top(fires) || Precedence(rule) < Precedence(Top(fires))
  {
  }

  /** The rule that decides. */
  function Winner(s: Signals): Rule {
    Top((rule: Rule) => Fires(rule, s))
  }

  /** The winner fires, and every other rule that fires has a strictly lower precedence. */
  lemma WinnerIsMaximal(s: Signals, rule: Rule)
    requires Fires(rule, s)
    ensures Fires(Winner(s), s)
    ensures rule == Winner(s) || Precedence(rule) < Precedence(Winner(s))
  {
    TopIsMaximal((r: Rule) => Fires(r, s), rule);
  }

  /** Exactly when a policy question ends in an executable decision. */
  predicate Grants(s: Signals) {
    && !HardDenied(s) && s.schemaValid && s.predictsTool && s.sameTeam && !LowTrustExternalWrite(s)
    && (if s.grantPresent then s.memoryConsistent
        else s.predictsScope && s.approvalMode == Some("auto_approve") && s.safeToAutomate)
  }

  lemma WinnerOfHardDeny(s: Signals)
    ensures HardDenied(s) <==> IsHardDeny(Winner(s))
  {
    WinnerIsMaximal(s, DenyDefault);
    if rule :| IsHardDeny(rule) && HardFires(rule, s) {
      WinnerIsMaximal(s, rule);
    }
  }

  /** Without a hard deny, the winner is the best of the soft rules that fire. */
  lemma SoftWinner(s: Signals, rule: Rule)
    requires !HardDenied(s) && SoftFires(rule, s)
    ensures SoftFires(Winner(s), s) && Precedence(Winner(s)) >= Precedence(rule)
  {
    WinnerIsMaximal(s, rule);
    WinnerOfHardDeny(s);
  }

  lemma ExecutableIffGrants(s: Signals)
    ensures Executable(DecisionOf(Winner(s))) <==> Grants(s)
    ensures DecisionOf(Winner(s)) == Allow <==> Grants(s) && s.grantPresent
  {
    var w := Winner(s);
    WinnerOfHardDeny(s);
    WinnerIsMaximal(s, DenyDefault);
    if !HardDenied(s) {
      assert w.DenyDefault? || SoftFires(w, s);
      if SoftFires(EscalateLowTrustExternal, s) {
        SoftWinner(s, EscalateLowTrustExternal);
      } else if SoftFires(AllowCurrentGrant, s) {
        SoftWinner(s, AllowCurrentGrant);
      } else if SoftFires(AutoApproveRecipeScope, s) {
        SoftWinner(s, AutoApproveRecipeScope);
      }
    }
  }
}
