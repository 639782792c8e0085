/** On a compiled fact set, the Datalog program computes the reference table. */
module PolicyDatalogTable {
  import opened Wrappers
  import opened PolicyTable
  import opened PolicyRows
  import opened PolicyDatalog

  function CallOfInputs(i: Inputs): Call {
    Call(i.session, i.tool, i.resource)
  }

  lemma RequestedOf(i: Inputs)
    ensures Requested(RowsOf(i)) == {CallOfInputs(i)}
    ensures RequiredScope(RowsOf(i)) == {ScopeTuple(i.session, i.tool, i.scope)}
  {
  }

  lemma MemoryOf(i: Inputs)
    ensures MemoryTuple(i.session, i.tool, i.resource, i.scope) in MemoryConsistent(RowsOf(i)) <==> i.contextPath != []
  {
  }

  lemma ExternalWriteOf(i: Inputs)
    ensures ExternalWrite(RowsOf(i)) == if DatalogSignals(i).externalWrite then {CallOfInputs(i)} else {}
    ensures LowTrustExternalWriteRel(RowsOf(i)) == if LowTrustExternalWrite(DatalogSignals(i)) then {CallOfInputs(i)} else {}
  {
  }

  lemma FlagsOf(i: Inputs)
    ensures FlagRow(i.session, "external_write_predicted", true) in RowsOf(i).policyFlag <==> DatalogSignals(i).externalWritePredicted
    ensures FlagRow(i.session, "break_glass", true) in RowsOf(i).policyFlag <==> DatalogSignals(i).breakGlass
    ensures FlagRow(i.session, "context_snapshot_present", true) in RowsOf(i).policyFlag <==> DatalogSignals(i).snapshotPresent
  {
  }

  lemma CredentialOf(i: Inputs)
    ensures ToolScope(i.tool, i.scope) in CredentialOkRel(RowsOf(i)) <==> CredentialOk(i)
    ensures i.resource in ResourceAutoApprovable(RowsOf(i)) <==> !i.external && i.sensitivity in {"low", "normal"}
  {
  }

  lemma ViolationsAt(db: Rows, call: Call, kinds: seq<string>, kind: string, precedence: int, reason: string, rule: Rule)
    requires |db.violation| == |kinds|
    requires forall k :: 0 <= k < |kinds| ==> db.violation[k] == ViolationRow(call.session, call.tool, call.resource, kinds[k])
    ensures DenyViolationRel(db, kind, precedence, reason, rule)
         == if kind in kinds then {HardDeny(call, precedence, reason, rule)} else {}
  {
  }

  lemma ViolationOf(i: Inputs, kind: string, precedence: int, reason: string, rule: Rule)
    ensures DenyViolationRel(RowsOf(i), kind, precedence, reason, rule)
         == if kind in DatalogSignals(i).violations then {HardDeny(CallOfInputs(i), precedence, reason, rule)} else {}
  {
    ViolationsAt(RowsOf(i), CallOfInputs(i), i.violations, kind, precedence, reason, rule);
  }

  /** The tuple that a hard deny contributes for the requested call. */
  function DenyTuple(i: Inputs, rule: Rule): HardDeny {
    HardDeny(CallOfInputs(i), Precedence(rule), Reason(rule), rule)
  }

  /** The relation of one hard deny: its tuple, or nothing. */
  function Only(i: Inputs, rule: Rule): set<HardDeny> {
    if IsHardDeny(rule) && HardFires(rule, DatalogSignals(i)) then {DenyTuple(i, rule)} else {}
  }

  lemma DenySchemaInvalidOf(i: Inputs)
    ensures DenySchemaInvalidRel(RowsOf(i)) == Only(i, DenySchemaInvalid)
  {
  }

  lemma DenyNoDelegationOf(i: Inputs)
    ensures DenyNoDelegationRel(RowsOf(i)) == Only(i, DenyNoDelegation)
  {
  }

  lemma DenyWrongTeamOf(i: Inputs)
    ensures DenyWrongTeamRel(RowsOf(i)) == Only(i, DenyWrongTeam)
  {
  }

  lemma DenyUnpredictedToolOf(i: Inputs)
    ensures DenyUnpredictedToolRel(RowsOf(i)) == Only(i, DenyUnpredictedTool)
  {
  }

  lemma DenyLowTrustOf(i: Inputs)
    ensures DenyLowTrustRel(RowsOf(i)) == Only(i, DenyLowTrust)
  {
  }

  lemma DenyExternalWriteOf(i: Inputs)
    ensures DenyExternalWriteRel(RowsOf(i)) == Only(i, DenyExternalWrite)
  {
    var db := RowsOf(i);
    RequestedOf(i);
    assert CallOfInputs(i) in Requested(db);
    ExternalWriteOf(i);
    FlagsOf(i);
  }

  lemma DenyAdminScopeOf(i: Inputs)
    ensures DenyAdminScopeRel(RowsOf(i)) == Only(i, DenyAdminScope)
  {
    var db := RowsOf(i);
    RequestedOf(i);
    assert CallOfInputs(i) in Requested(db);
    FlagsOf(i);
    assert ScopeTuple(i.session, i.tool, i.scope) in RequiredScope(db);
  }

  lemma DenyUnreifiedRecipeHitOf(i: Inputs)
    ensures DenyUnreifiedRecipeHitRel(RowsOf(i)) == Only(i, DenyUnreifiedRecipeHit)
  {
  }

  lemma DenyMissingContextPathOf(i: Inputs)
    ensures DenyMissingContextPathRel(RowsOf(i)) == Only(i, DenyMissingContextPath)
  {
    var db := RowsOf(i);
    RequestedOf(i);
    assert CallOfInputs(i) in Requested(db);
    FlagsOf(i);
    MemoryOf(i);
    assert ScopeTuple(i.session, i.tool, i.scope) in RequiredScope(db);
  }

  /** The union of thirteen relations, one for each hard deny. */
  function UnionOfHardDenies(rel: Rule -> set<HardDeny>): set<HardDeny> {
    rel(DenySchemaInvalid) + rel(DenyNoDelegation) + rel(DenyLowTrust) + rel(DenyWrongTeam)
    + rel(DenyUnpredictedTool) + rel(DenyExternalWrite) + rel(DenyAdminScope)
    + rel(DenyDirectSecretRead) + rel(DenySecretExposure) + rel(DenyBulkExport) + rel(DenyGoalExpansion)
    + rel(DenyUnreifiedRecipeHit) + rel(DenyMissingContextPath)
  }

  predicate InFirstSeven(rel: Rule -> set<HardDeny>, h: HardDeny) {
    h in rel(DenySchemaInvalid) || h in rel(DenyNoDelegation) || h in rel(DenyLowTrust) || h in rel(DenyWrongTeam)
    || h in rel(DenyUnpredictedTool) || h in rel(DenyExternalWrite) || h in rel(DenyAdminScope)
  }

  predicate InLastSix(rel: Rule -> set<HardDeny>, h: HardDeny) {
    h in rel(DenyDirectSecretRead) || h in rel(DenySecretExposure) || h in rel(DenyBulkExport) || h in rel(DenyGoalExpansion)
    || h in rel(DenyUnreifiedRecipeHit) || h in rel(DenyMissingContextPath)
  }

  lemma UnionIsEither(rel: Rule -> set<HardDeny>, h: HardDeny)
    ensures h in UnionOfHardDenies(rel) <==> InFirstSeven(rel, h) || InLastSix(rel, h)
  {
  }

  /** When each relation holds its own tuple or nothing, the union holds the tuples of the hard denies that fire. */
  lemma UnionMembers(rel: Rule -> set<HardDeny>, tuple: Rule -> HardDeny, fires: Rule -> bool, h: HardDeny)
    requires forall rule :: rel(rule) == if fires(rule) then {tuple(rule)} else {}
    requires forall rule :: tuple(rule).rule == rule
    ensures h in UnionOfHardDenies(rel) <==> IsHardDeny(h.rule) && fires(h.rule) && h == tuple(h.rule)
  {
    hide UnionOfHardDenies;
    UnionIsEither(rel, h);
    assert forall rule :: h in rel(rule) ==> rule == h.rule && fires(rule) && h == tuple(rule);
  }

  lemma ViolationsOf(i: Inputs)
    ensures DenyViolationRel(RowsOf(i), "direct_secret_read", 109, "direct password-manager secret read bypasses broker", DenyDirectSecretRead)
         == Only(i, DenyDirectSecretRead)
    ensures DenyViolationRel(RowsOf(i), "secret_exposure", 108, "request would expose secret material to the agent", DenySecretExposure)
         == Only(i, DenySecretExposure)
    ensures DenyViolationRel(RowsOf(i), "bulk_export", 107, "request attempts bulk export of protected data", DenyBulkExport)
         == Only(i, DenyBulkExport)
    ensures DenyViolationRel(RowsOf(i), "goal_expansion", 106, "tool output attempted to expand the signed session goal", DenyGoalExpansion)
         == Only(i, DenyGoalExpansion)
  {
    hide DenyViolationRel, RowsOf, SignalsOf;
    ViolationOf(i, "direct_secret_read", 109, Reason(DenyDirectSecretRead), DenyDirectSecretRead);
    ViolationOf(i, "secret_exposure", 108, Reason(DenySecretExposure), DenySecretExposure);
    ViolationOf(i, "bulk_export", 107, Reason(DenyBulkExport), DenyBulkExport);
    ViolationOf(i, "goal_expansion", 106, Reason(DenyGoalExpansion), DenyGoalExpansion);
  }

  lemma HardDeniesAreAllOnly(i: Inputs)
    ensures HardDenies(RowsOf(i)) == UnionOfHardDenies((rule: Rule) => Only(i, rule))
  {
    DenySchemaInvalidOf(i);
    DenyNoDelegationOf(i);
    DenyWrongTeamOf(i);
    DenyUnpredictedToolOf(i);
    DenyLowTrustOf(i);
    DenyExternalWriteOf(i);
    DenyAdminScopeOf(i);
    DenyUnreifiedRecipeHitOf(i);
    DenyMissingContextPathOf(i);
    ViolationsOf(i);
  }

  /** The hard-deny stratum of a compiled fact set: one tuple for each hard deny that fires. */
  lemma HardDeniesOf(i: Inputs, h: HardDeny)
    ensures h in HardDenies(RowsOf(i)) <==>
              IsHardDeny(h.rule) && HardFires(h.rule, DatalogSignals(i)) && h == DenyTuple(i, h.rule)
  {
    hide HardDenies, RowsOf, SignalsOf, HardFires, UnionOfHardDenies;
    HardDeniesAreAllOnly(i);
    var s := DatalogSignals(i);
    UnionMembers((rule: Rule) => Only(i, rule), (rule: Rule) => DenyTuple(i, rule),
                 (rule: Rule) => IsHardDeny(rule) && HardFires(rule, s), h);
  }

  lemma DeniedCallsOf(i: Inputs)
    ensures CallOfInputs(i) in DeniedCalls(RowsOf(i)) <==> HardDenied(DatalogSignals(i))
  {
    hide HardDenies, RowsOf, SignalsOf, HardFires;
    var db, s := RowsOf(i), DatalogSignals(i);
    if HardDenied(s) {
      var rule :| IsHardDeny(rule) && HardFires(rule, s);
      HardDeniesOf(i, DenyTuple(i, rule));
      assert DenyTuple(i, rule) in HardDenies(db);
    } else {
      forall h ensures h !in HardDenies(db) {
        HardDeniesOf(i, h);
      }
    }
  }

  // ---- Candidates ----

  function MemoryTupleOf(i: Inputs): MemoryTuple {
    MemoryTuple(i.session, i.tool, i.resource, i.scope)
  }

  /** The tuple that a rule contributes to the candidates. */
  function CandidateTuple(i: Inputs, rule: Rule): Tuple {
    Tuple(CallOfInputs(i), Outcome(rule))
  }

  /** The relation of one rule that a hard deny suppresses: its tuple, or nothing. */
  function SoftOnly(i: Inputs, rule: Rule): set<Tuple> {
    if !HardDenied(DatalogSignals(i)) && SoftFires(rule, DatalogSignals(i)) then {CandidateTuple(i, rule)} else {}
  }

  lemma OpenOf(i: Inputs)
    ensures Open(RowsOf(i)) == if i.schemaValid && !HardDenied(DatalogSignals(i)) then {MemoryTupleOf(i)} else {}
  {
    hide HardDenied, SignalsOf, DeniedCalls;
    var db := RowsOf(i);
    RequestedOf(i);
    DeniedCallsOf(i);
    assert CallOfInputs(i) in Requested(db);
    assert ScopeTuple(i.session, i.tool, i.scope) in RequiredScope(db);
    assert SchemaRow(i.session, i.tool, i.schemaValid, i.schemaRepairable) in db.schemaState;
  }

  lemma RepairOf(i: Inputs)
    ensures RepairRel(RowsOf(i)) == SoftOnly(i, RepairSchemaArgs)
  {
    hide HardDenied, DeniedCalls;
    var db := RowsOf(i);
    RequestedOf(i);
    DeniedCallsOf(i);
    assert CallOfInputs(i) in Requested(db);
    assert SchemaRow(i.session, i.tool, i.schemaValid, i.schemaRepairable) in db.schemaState;
  }

  /** The side conditions that the remaining rules share. */
  lemma SharedConditions(i: Inputs)
    ensures RequestedTool(i.session, i.tool) in RecipePredictsTool(RowsOf(i)) <==> DatalogSignals(i).predictsTool
    ensures SessionScope(i.session, i.scope) in RecipePredictsScope(RowsOf(i)) <==> DatalogSignals(i).predictsScope
    ensures RequestedResource(i.session, i.resource) in SameTeamResource(RowsOf(i)) <==> DatalogSignals(i).sameTeam
    ensures MemoryTupleOf(i) in MemoryConsistent(RowsOf(i)) <==> DatalogSignals(i).memoryConsistent
    ensures GrantRow(i.session, i.scope, i.resource) in RowsOf(i).currentGrant <==> DatalogSignals(i).grantPresent
    ensures DatalogSignals(i).schemaValid == i.schemaValid
    ensures DatalogSignals(i).approvalMode == if KnownRecipe(i) then i.approvalMode else None
    ensures DatalogSignals(i).safeToAutomate == SafeToAutomate(i)
  {
  }

  lemma EscalateLowTrustOf(i: Inputs)
    ensures EscalateLowTrustRel(RowsOf(i)) == SoftOnly(i, EscalateLowTrustExternal)
  {
    LowTrustOutcome();
    hide Outcome, HardDenied, RowsOf, SignalsOf, Open, RecipePredictsTool, SameTeamResource, LowTrustExternalWriteRel,
         LowTrustExternalWrite;
    OpenOf(i);
    SharedConditions(i);
    ExternalWriteOf(i);
    assert i.schemaValid && !HardDenied(DatalogSignals(i)) ==> MemoryTupleOf(i) in Open(RowsOf(i));
  }

  lemma AllowOf(i: Inputs)
    ensures AllowRel(RowsOf(i)) == SoftOnly(i, AllowCurrentGrant)
  {
    hide HardDenied, RowsOf, SignalsOf, Open, RecipePredictsTool, SameTeamResource, MemoryConsistent;
    OpenOf(i);
    SharedConditions(i);
    assert i.schemaValid && !HardDenied(DatalogSignals(i)) ==> MemoryTupleOf(i) in Open(RowsOf(i));
  }

  lemma ModesOf(i: Inputs)
    ensures RowsOf(i).recipeScope
         == if DatalogSignals(i).approvalMode.Some? then [RecipeScopeRow(i.recipe, i.scope, DatalogSignals(i).approvalMode.value)] else []
    ensures RowsOf(i).toolScope == [ToolScopeRow(i.tool, i.scope, i.accessKind, i.risk)]
  {
  }

  lemma LowTrustOutcome()
    ensures Outcome(EscalateLowTrustExternal)
         == Candidate(EscalateHuman, 75, "external write requires higher agent trust", EscalateLowTrustExternal)
  {
  }

  lemma AutoApproveOutcome()
    ensures Outcome(AutoApproveRecipeScope)
         == Candidate(AutoApprove, 60, "accepted recipe auto-approves a bounded ephemeral grant", AutoApproveRecipeScope)
  {
  }

  lemma AutoApproveOf(i: Inputs)
    ensures AutoApproveRel(RowsOf(i)) == SoftOnly(i, AutoApproveRecipeScope)
  {
    AutoApproveOutcome();
    hide Outcome, HardDenied, RowsOf, SignalsOf, Open, RecipePredictsTool, RecipePredictsScope, SameTeamResource, CredentialOk,
         CredentialOkRel, ResourceAutoApprovable;
    OpenOf(i);
    SharedConditions(i);
    ModesOf(i);
    CredentialOf(i);
    var db := RowsOf(i);
    assert i.schemaValid && !HardDenied(DatalogSignals(i)) ==> MemoryTupleOf(i) in Open(db);
    assert ToolScopeRow(i.tool, i.scope, i.accessKind, i.risk) in db.toolScope;
    assert DatalogSignals(i).approvalMode.Some? ==>
      RecipeScopeRow(i.recipe, i.scope, DatalogSignals(i).approvalMode.value) in db.recipeScope;
  }

  lemma EscalateHumanOf(i: Inputs)
    ensures EscalateHumanRel(RowsOf(i)) == SoftOnly(i, EscalateHumanRequiredScope)
  {
    hide HardDenied, RowsOf, SignalsOf, Open, RecipePredictsTool, RecipePredictsScope, SameTeamResource, MemoryConsistent;
    OpenOf(i);
    SharedConditions(i);
    ModesOf(i);
    var db := RowsOf(i);
    assert i.schemaValid && !HardDenied(DatalogSignals(i)) ==> MemoryTupleOf(i) in Open(db);
    assert DatalogSignals(i).approvalMode.Some? ==>
      RecipeScopeRow(i.recipe, i.scope, DatalogSignals(i).approvalMode.value) in db.recipeScope;
  }

  lemma DenyCandidates(i: Inputs, t: Tuple)
    ensures t in (set h <- HardDenies(RowsOf(i)) :: Tuple(h.call, Candidate(Deny, h.precedence, h.reason, h.rule)))
       <==> IsHardDeny(t.candidate.rule) && HardFires(t.candidate.rule, DatalogSignals(i)) && t == CandidateTuple(i, t.candidate.rule)
  {
    hide HardDenies, RowsOf, SignalsOf, HardFires;
    var h := DenyTuple(i, t.candidate.rule);
    HardDeniesOf(i, h);
    forall g | g in HardDenies(RowsOf(i)) ensures g == DenyTuple(i, g.rule) && IsHardDeny(g.rule) {
      HardDeniesOf(i, g);
    }
  }

  /** The union of five relations, one for each rule that a hard deny suppresses. */
  function UnionOfSoft(rel: Rule -> set<Tuple>): set<Tuple> {
    rel(RepairSchemaArgs) + rel(EscalateLowTrustExternal) + rel(AllowCurrentGrant) + rel(AutoApproveRecipeScope)
    + rel(EscalateHumanRequiredScope)
  }

  predicate IsSoft(rule: Rule) {
    !IsHardDeny(rule) && !rule.DenyDefault?
  }

  lemma SoftUnionMembers(rel: Rule -> set<Tuple>, tuple: Rule -> Tuple, fires: Rule -> bool, t: Tuple)
    requires forall rule :: rel(rule) == if fires(rule) then {tuple(rule)} else {}
    requires forall rule :: tuple(rule).candidate.rule == rule
    ensures t in UnionOfSoft(rel) <==> IsSoft(t.candidate.rule) && fires(t.candidate.rule) && t == tuple(t.candidate.rule)
  {
  }

  lemma SoftRelationsOf(i: Inputs)
    ensures RepairRel(RowsOf(i)) + EscalateLowTrustRel(RowsOf(i)) + AllowRel(RowsOf(i)) + AutoApproveRel(RowsOf(i)) + EscalateHumanRel(RowsOf(i))
         == UnionOfSoft((rule: Rule) => SoftOnly(i, rule))
  {
    hide RowsOf, SoftOnly, RepairRel, EscalateLowTrustRel, AllowRel, AutoApproveRel, EscalateHumanRel;
    RepairOf(i);
    EscalateLowTrustOf(i);
    AllowOf(i);
    AutoApproveOf(i);
    EscalateHumanOf(i);
  }

  lemma SoftCandidates(i: Inputs, t: Tuple)
    ensures t in RepairRel(RowsOf(i)) + EscalateLowTrustRel(RowsOf(i)) + AllowRel(RowsOf(i)) + AutoApproveRel(RowsOf(i)) + EscalateHumanRel(RowsOf(i))
       <==> IsSoft(t.candidate.rule) && Fires(t.candidate.rule, DatalogSignals(i)) && t == CandidateTuple(i, t.candidate.rule)
  {
    hide RowsOf, RepairRel, EscalateLowTrustRel, AllowRel, AutoApproveRel, EscalateHumanRel, SignalsOf, HardDenied, SoftFires, UnionOfSoft;
    SoftRelationsOf(i);
    var s := DatalogSignals(i);
    SoftUnionMembers((rule: Rule) => SoftOnly(i, rule), (rule: Rule) => CandidateTuple(i, rule),
                     (rule: Rule) => !HardDenied(s) && SoftFires(rule, s), t);
  }

  /** On a compiled fact set, the candidates of the Datalog program are exactly the outcomes of the rules that fire. */
  lemma CandidatesOf(i: Inputs, t: Tuple)
    ensures t in Candidates(RowsOf(i)) <==> Fires(t.candidate.rule, DatalogSignals(i)) && t == CandidateTuple(i, t.candidate.rule)
  {
    hide HardDenies, RowsOf, SignalsOf, HardFires, HardDenied, SoftFires, Requested, RepairRel, EscalateLowTrustRel, AllowRel,
         AutoApproveRel, EscalateHumanRel;
    DenyCandidates(i, t);
    SoftCandidates(i, t);
    RequestedOf(i);
    assert CallOfInputs(i) in Requested(RowsOf(i));
  }

  /** The candidates query returns exactly the outcomes of the rules that fire. */
  lemma CandidateQueryOf(i: Inputs, c: Candidate)
    ensures c in CandidateQuery(RowsOf(i)) <==> Fires(c.rule, DatalogSignals(i)) && c == Outcome(c.rule)
  {
    hide Candidates, RowsOf, SignalsOf, Fires;
    var t := CandidateTuple(i, c.rule);
    CandidatesOf(i, t);
    forall u | u in Candidates(RowsOf(i)) ensures Fires(u.candidate.rule, DatalogSignals(i)) && u == CandidateTuple(i, u.candidate.rule) {
      CandidatesOf(i, u);
    }
  }

  lemma DefaultFires(s: Signals)
    ensures Fires(DenyDefault, s)
  {
  }

  /** The effective query returns exactly one row: the outcome of the winning rule. */
  lemma EffectiveQueryOf(i: Inputs)
    ensures EffectiveQuery(RowsOf(i)) == {Outcome(Winner(DatalogSignals(i)))}
  {
    hide Candidates, RowsOf, SignalsOf, Fires, Winner;
    var db, s := RowsOf(i), DatalogSignals(i);
    DefaultFires(s);
    WinnerIsMaximal(s, DenyDefault);
    var w := CandidateTuple(i, Winner(s));
    CandidatesOf(i, w);
    forall u | u in Candidates(db) ensures u == w || u.candidate.precedence < w.candidate.precedence {
      CandidatesOf(i, u);
      WinnerIsMaximal(s, u.candidate.rule);
    }
    assert w.candidate in EffectiveQuery(db);
  }

  /** The row count that `_evaluate_with_cozo` insists on always holds, so its error cannot occur. */
  lemma UniqueWinner(i: Inputs)
    ensures |EffectiveQuery(RowsOf(i))| == 1
  {
    EffectiveQueryOf(i);
  }
}
