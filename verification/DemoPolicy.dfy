/** The small reference policy (demo/rebac.py, authorize) that the platform policy promotes. */
module DemoPolicy {
  import opened Wrappers
  import opened PolicyTable
  import opened PolicyRows
  import opened PolicyDatalog
  import opened PolicyTheorems

  /** What the reference policy looks up in its tables. */
  datatype DemoFacts = DemoFacts(
    sessionKnown: bool, delegated: bool, resourceKnown: bool, toolKnown: bool, sameTeam: bool, predictsTool: bool,
    external: bool, accessKind: string, grantPresent: bool, approvalMode: Option<string>)

  datatype DemoDecision = DemoDecision(decision: Decision, reason: string)

  function DemoDeny(reason: string): DemoDecision {
    DemoDecision(Deny, reason)
  }

  /** The chain of early returns. */
  function DemoAuthorize(f: DemoFacts): DemoDecision {
    if !f.sessionKnown then DemoDeny("unknown session")
    else if !f.delegated then DemoDeny("no delegation: agent not authorized to act for user on this session")
    else if !f.resourceKnown then DemoDeny("unknown resource")
    else if !f.toolKnown then DemoDeny("unknown tool")
    else if !f.sameTeam then DemoDeny("resource not owned by session team")
    else if !f.predictsTool then DemoDeny("recipe did not predict this tool")
    else if f.external && f.accessKind == "write" then DemoDeny("external write not predicted by recipe and not granted")
    else if f.grantPresent then DemoDecision(Allow, "grant exists for scope@resource")
    else if f.approvalMode == Some("human_required") then DemoDecision(EscalateHuman, "scope requires human approval")
    else if f.approvalMode == Some("auto_approve") then DemoDecision(Allow, "recipe auto-approves scope for team resource")
    else DemoDeny("no grant and scope not auto-approved")
  }

  /** Nothing speaks against the call but, perhaps, that nobody granted it. */
  predicate DemoAdmits(f: DemoFacts) {
    && f.sessionKnown && f.resourceKnown && f.toolKnown && f.delegated && f.sameTeam && f.predictsTool
    && !(f.external && f.accessKind == "write")
  }

  /** Exactly when the reference policy allows a call. */
  lemma DemoAllowsExactly(f: DemoFacts)
    ensures DemoAuthorize(f).decision == Allow <==> DemoAdmits(f) && (f.grantPresent || f.approvalMode == Some("auto_approve"))
  {
  }

  /** Exactly when it asks a human; in all other cases it denies. */
  lemma DemoAsksExactly(f: DemoFacts)
    ensures DemoAuthorize(f).decision == EscalateHuman
       <==> DemoAdmits(f) && !f.grantPresent && f.approvalMode == Some("human_required")
    ensures DemoAuthorize(f).decision in {Allow, EscalateHuman, Deny}
  {
  }

  /** The facts that both policies are given about a known session, resource and tool. */
  function Shared(i: Inputs): DemoFacts {
    DemoFacts(
      sessionKnown := true, delegated := i.delegationPresent, resourceKnown := true, toolKnown := true,
      sameTeam := i.team == i.resourceTeam, predictsTool := i.recipePredictsTool, external := i.external,
      accessKind := i.accessKind, grantPresent := i.grantPresent, approvalMode := i.approvalMode)
  }

  /** Whatever the platform lets run, the reference policy allows too, except for external writes. */
  lemma PromotionAllowsIff(i: Inputs)
    requires Executes(i)
    ensures DemoAuthorize(Shared(i)).decision == Allow <==> !(i.external && i.accessKind == "write")
  {
    hide EffectiveQuery, RowsOf, Executes;
    ExecutesIffGrants(i);
    assert !HardFires(DenyNoDelegation, DatalogSignals(i));
  }

  /** Without the flag for predicted external writes, the promotion is conservative. */
  lemma PromotionIsConservative(i: Inputs)
    requires Executes(i) && i.externalWritePredicted != Some(true)
    ensures DemoAuthorize(Shared(i)).decision == Allow
  {
    hide EffectiveQuery, RowsOf, Executes;
    ExecutesIffGrants(i);
    assert !HardFires(DenyExternalWrite, DatalogSignals(i));
    PromotionAllowsIff(i);
  }

  /** An external write that the platform runs because it was flagged as predicted. */
  const FLAGGED_WRITE := PATHLESS.(
    external := true, accessKind := "write", contextPath := ["path"], grantPresent := true, externalWritePredicted := Some(true))

  /** With the flag, the platform runs calls that the reference policy denies. */
  lemma FlaggedWritesExceedDemo()
    ensures Executes(FLAGGED_WRITE) && DemoAuthorize(Shared(FLAGGED_WRITE)).decision == Deny
  {
    hide EffectiveQuery, RowsOf, Executes;
    ExecutesIffGrants(FLAGGED_WRITE);
    var s := DatalogSignals(FLAGGED_WRITE);
    assert forall rule :: IsHardDeny(rule) ==> !HardFires(rule, s);
  }
}
