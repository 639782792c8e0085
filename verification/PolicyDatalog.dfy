/**
 * `COZO_POLICY_RULES` (platform/cozo_policy.py): every rule of the Datalog program as a relation, that is, a finite
 * set of tuples. The program is stratified: negation only ever reads relations that are already complete.
 */
module PolicyDatalog {
  import opened PolicyTable
  import opened PolicyRows

  // ---- Stratum 0: positive relations ----

  datatype ScopeTuple = ScopeTuple(session: string, tool: string, scope: string)

  function RequiredScope(db: Rows): set<ScopeTuple> {
    set rt <- db.requestedTool, ts <- db.toolScope | rt.tool == ts.tool :: ScopeTuple(rt.session, rt.tool, ts.scope)
  }

  function RecipePredictsTool(db: Rows): set<RequestedTool> {
    set hit <- db.similarRecipe, row <- db.recipeTool
      | hit.status == "accepted" && hit.reified && hit.score >= MIN_RECIPE_SCORE && hit.recipe == row.recipe
      :: RequestedTool(hit.session, row.tool)
  }

  datatype SessionScope = SessionScope(session: string, scope: string)

  function RecipePredictsScope(db: Rows): set<SessionScope> {
    set hit <- db.similarRecipe, row <- db.recipeScope
      | hit.status == "accepted" && hit.reified && hit.score >= MIN_RECIPE_SCORE && hit.recipe == row.recipe
      :: SessionScope(hit.session, row.scope)
  }

  datatype MemoryTuple = MemoryTuple(session: string, tool: string, resource: string, scope: string)

  function MemoryConsistent(db: Rows): set<MemoryTuple> {
    set p <- db.contextPath :: MemoryTuple(p.session, p.tool, p.resource, p.scope)
  }

  function SameTeamResource(db: Rows): set<RequestedResource> {
    set s <- db.session, r <- db.resource | s.team == r.team :: RequestedResource(s.session, r.resource)
  }

  function LowAgentTrust(db: Rows): set<string> {
    set t <- db.agentTrust | t.belowMinimum :: t.session
  }

  /** The head of the rules about one requested call. */
  datatype Call = Call(session: string, tool: string, resource: string)

  function Requested(db: Rows): set<Call> {
    set rt <- db.requestedTool, rr <- db.requestedResource | rt.session == rr.session :: Call(rt.session, rt.tool, rr.resource)
  }

  /** The requested calls whose tool needs write access to an external resource. */
  function ExternalWrite(db: Rows): set<Call> {
    set c <- Requested(db), ts <- db.toolScope, r <- db.resource
      | ScopeTuple(c.session, c.tool, ts.scope) in RequiredScope(db) && ts.tool == c.tool && ts.accessKind == "write"
        && r.resource == c.resource && r.external
      :: c
  }

  function LowTrustExternalWriteRel(db: Rows): set<Call> {
    set c <- ExternalWrite(db), t <- db.agentTrust | t.session == c.session && t.belowSensitive :: c
  }

  function ResourceAutoApprovable(db: Rows): set<string> {
    set r <- db.resource | !r.external && r.sensitivity in {"low", "normal"} :: r.resource
  }

  datatype ToolScope = ToolScope(tool: string, scope: string)

  function CredentialOkRel(db: Rows): set<ToolScope> {
    (set ts <- db.toolScope | (forall c :: c in db.credentialRequired ==> c.tool != ts.tool) :: ToolScope(ts.tool, ts.scope))
    + (set c <- db.credentialRequired, b <- db.credentialBinding
         | b.tool == c.tool && b.refStatus == "active" && !b.exposesSecret :: ToolScope(c.tool, b.scope))
  }

  // ---- Stratum 1: hard denies ----

  datatype HardDeny = HardDeny(call: Call, precedence: int, reason: string, rule: Rule)

  function DenySchemaInvalidRel(db: Rows): set<HardDeny> {
    set c <- Requested(db), s <- db.schemaState | s.session == c.session && s.tool == c.tool && !s.valid && !s.repairable
      :: HardDeny(c, 98, "schema invalid and not safely repairable", DenySchemaInvalid)
  }

  function DenyNoDelegationRel(db: Rows): set<HardDeny> {
    set c <- Requested(db), s <- db.session
      | s.session == c.session && DelegationRow(s.session, s.user, s.agent) !in db.delegation
      :: HardDeny(c, 101, "no delegation for agent on session", DenyNoDelegation)
  }

  function DenyLowTrustRel(db: Rows): set<HardDeny> {
    set c <- Requested(db) | c.session in LowAgentTrust(db)
      :: HardDeny(c, 110, "agent trust score below minimum", DenyLowTrust)
  }

  function DenyWrongTeamRel(db: Rows): set<HardDeny> {
    set c <- Requested(db), s <- db.session, r <- db.resource
      | s.session == c.session && r.resource == c.resource && s.team != r.team
      :: HardDeny(c, 100, "resource not owned by session team", DenyWrongTeam)
  }

  function DenyUnpredictedToolRel(db: Rows): set<HardDeny> {
    set c <- Requested(db), s <- db.schemaState
      | s.session == c.session && s.tool == c.tool && s.valid && RequestedTool(c.session, c.tool) !in RecipePredictsTool(db)
      :: HardDeny(c, 99, "recipe did not predict this tool", DenyUnpredictedTool)
  }

  function DenyExternalWriteRel(db: Rows): set<HardDeny> {
    set c <- ExternalWrite(db)
      | FlagRow(c.session, "external_write_predicted", true) !in db.policyFlag && c !in LowTrustExternalWriteRel(db)
      :: HardDeny(c, 104, "external write not predicted as safe", DenyExternalWrite)
  }

  function DenyAdminScopeRel(db: Rows): set<HardDeny> {
    set c <- Requested(db), rs <- RequiredScope(db)
      | rs.session == c.session && rs.tool == c.tool && rs.scope in ADMIN_SCOPES
        && FlagRow(c.session, "break_glass", true) !in db.policyFlag
      :: HardDeny(c, 105, "admin scope requires break-glass approval", DenyAdminScope)
  }

  function DenyViolationRel(db: Rows, kind: string, precedence: int, reason: string, rule: Rule): set<HardDeny> {
    set v <- db.violation | v.kind == kind :: HardDeny(Call(v.session, v.tool, v.resource), precedence, reason, rule)
  }

  function DenyUnreifiedRecipeHitRel(db: Rows): set<HardDeny> {
    set c <- Requested(db), hit <- db.similarRecipe | hit.session == c.session && hit.status == "accepted" && !hit.reified
      :: HardDeny(c, 103, "recipe retrieval hit was not reified against Dolt commit", DenyUnreifiedRecipeHit)
  }

  function DenyMissingContextPathRel(db: Rows): set<HardDeny> {
    set c <- Requested(db), rs <- RequiredScope(db)
      | rs.session == c.session && rs.tool == c.tool
        && FlagRow(c.session, "context_snapshot_present", true) in db.policyFlag
        && MemoryTuple(c.session, c.tool, c.resource, rs.scope) !in MemoryConsistent(db)
      :: HardDeny(c, 102, "missing context path for graph-backed decision", DenyMissingContextPath)
  }

  function HardDenies(db: Rows): set<HardDeny> {
    DenySchemaInvalidRel(db) + DenyNoDelegationRel(db) + DenyLowTrustRel(db) + DenyWrongTeamRel(db)
    + DenyUnpredictedToolRel(db) + DenyExternalWriteRel(db) + DenyAdminScopeRel(db)
    + DenyViolationRel(db, "direct_secret_read", 109, "direct password-manager secret read bypasses broker", DenyDirectSecretRead)
    + DenyViolationRel(db, "secret_exposure", 108, "request would expose secret material to the agent", DenySecretExposure)
    + DenyViolationRel(db, "bulk_export", 107, "request attempts bulk export of protected data", DenyBulkExport)
    + DenyViolationRel(db, "goal_expansion", 106, "tool output attempted to expand the signed session goal", DenyGoalExpansion)
    + DenyUnreifiedRecipeHitRel(db) + DenyMissingContextPathRel(db)
  }

  /** The calls that `not hard_deny[s, tool, resource, ...]` excludes. */
  function DeniedCalls(db: Rows): set<Call> {
    set h <- HardDenies(db) :: h.call
  }

  // ---- Stratum 2: candidates ----

  datatype Tuple = Tuple(call: Call, candidate: Candidate)

  /** Requested calls with a required scope and a valid schema that no hard deny excludes, each with its scope. */
  function Open(db: Rows): set<MemoryTuple> {
    set c <- Requested(db), rs <- RequiredScope(db), s <- db.schemaState
      | rs.session == c.session && rs.tool == c.tool && s.session == c.session && s.tool == c.tool && s.valid
        && c !in DeniedCalls(db)
      :: MemoryTuple(c.session, c.tool, c.resource, rs.scope)
  }

  function CallOf(m: MemoryTuple): Call {
    Call(m.session, m.tool, m.resource)
  }

  function RepairRel(db: Rows): set<Tuple> {
    set c <- Requested(db), s <- db.schemaState
      | s.session == c.session && s.tool == c.tool && !s.valid && s.repairable && c !in DeniedCalls(db)
      :: Tuple(c, Candidate(Repair, 80, "tool arguments can be safely repaired", RepairSchemaArgs))
  }

  function EscalateLowTrustRel(db: Rows): set<Tuple> {
    set m <- Open(db)
      | RequestedTool(m.session, m.tool) in RecipePredictsTool(db)
        && RequestedResource(m.session, m.resource) in SameTeamResource(db)
        && CallOf(m) in LowTrustExternalWriteRel(db)
      :: Tuple(CallOf(m), Candidate(EscalateHuman, 75, "external write requires higher agent trust", EscalateLowTrustExternal))
  }

  function AllowRel(db: Rows): set<Tuple> {
    set m <- Open(db)
      | GrantRow(m.session, m.scope, m.resource) in db.currentGrant
        && RequestedResource(m.session, m.resource) in SameTeamResource(db)
        && RequestedTool(m.session, m.tool) in RecipePredictsTool(db)
        && m in MemoryConsistent(db)
      :: Tuple(CallOf(m), Candidate(Allow, 70, "grant exists for scope@resource", AllowCurrentGrant))
  }

  function AutoApproveRel(db: Rows): set<Tuple> {
    set m <- Open(db), mode <- db.recipeScope, ts <- db.toolScope
      | RequestedTool(m.session, m.tool) in RecipePredictsTool(db)
        && SessionScope(m.session, m.scope) in RecipePredictsScope(db)
        && mode.scope == m.scope && mode.approvalMode == "auto_approve"
        && RequestedResource(m.session, m.resource) in SameTeamResource(db)
        && ts.tool == m.tool && ts.scope == m.scope && ts.risk in {"low", "medium"}
        && m.resource in ResourceAutoApprovable(db)
        && ToolScope(m.tool, m.scope) in CredentialOkRel(db)
        && GrantRow(m.session, m.scope, m.resource) !in db.currentGrant
      :: Tuple(CallOf(m), Candidate(AutoApprove, 60, "accepted recipe auto-approves a bounded ephemeral grant", AutoApproveRecipeScope))
  }

  function EscalateHumanRel(db: Rows): set<Tuple> {
    set m <- Open(db), mode <- db.recipeScope
      | RequestedTool(m.session, m.tool) in RecipePredictsTool(db)
        && SessionScope(m.session, m.scope) in RecipePredictsScope(db)
        && mode.scope == m.scope && mode.approvalMode == "human_required"
        && RequestedResource(m.session, m.resource) in SameTeamResource(db)
        && m in MemoryConsistent(db)
        && GrantRow(m.session, m.scope, m.resource) !in db.currentGrant
      :: Tuple(CallOf(m), Candidate(EscalateHuman, 50, "scope requires human approval", EscalateHumanRequiredScope))
  }

  function Candidates(db: Rows): set<Tuple> {
    (set h <- HardDenies(db) :: Tuple(h.call, Candidate(Deny, h.precedence, h.reason, h.rule)))
    + RepairRel(db) + EscalateLowTrustRel(db) + AllowRel(db) + AutoApproveRel(db) + EscalateHumanRel(db)
    + (set c <- Requested(db)
         :: Tuple(c, Candidate(Deny, 10, "no grant, auto-approval, or human approval path matched", DenyDefault)))
  }

  // ---- Stratum 3: the queries ----

  /** The candidates query, without its call columns. */
  function CandidateQuery(db: Rows): set<Candidate> {
    set t <- Candidates(db) :: t.candidate
  }

  /** The effective query: the candidates whose precedence is the maximum. */
  function EffectiveQuery(db: Rows): set<Candidate> {
    set t <- Candidates(db) | (forall u :: u in Candidates(db) ==> u.candidate.precedence <= t.candidate.precedence) :: t.candidate
  }
}
