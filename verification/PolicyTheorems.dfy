/** The two policy texts compared, and how the decision moves when the facts move. */
module PolicyTheorems {
  import opened Wrappers
  import opened PolicyTable
  import opened PolicyRows
  import opened PolicyDatalog
  import opened PolicyDatalogTable
  import opened PolicyPython

  // ---- What the Python evaluator reads from compiled rows ----

  lemma PythonFlags(i: Inputs)
    ensures Flagged(RowsOf(i).policyFlag, "external_write_predicted") <==> i.externalWritePredicted == Some(true)
    ensures Flagged(RowsOf(i).policyFlag, "break_glass") <==> i.breakGlass == Some(true)
    ensures Flagged(RowsOf(i).policyFlag, "context_snapshot_present") <==> i.snapshotPresent
  {
    FlagsOf(i);
    assert forall f :: f in RowsOf(i).policyFlag ==> f.session == i.session;
    assert forall f :: f in RowsOf(i).policyFlag && f.value ==> f == FlagRow(i.session, f.name, true);
  }

  lemma PythonRecipe(i: Inputs)
    ensures PredictsTool(RowsOf(i).recipeTool, i.tool) <==> PythonSignals(i).predictsTool
    ensures PredictsScope(RowsOf(i).recipeScope, i.scope) <==> PythonSignals(i).predictsScope
    ensures FirstMode(RowsOf(i).recipeScope, i.scope) == PythonSignals(i).approvalMode
    ensures HasUnreified(RowsOf(i).similarRecipe) <==> PythonSignals(i).unreifiedHit
  {
  }

  lemma PythonCredential(i: Inputs)
    ensures RequiresCredential(RowsOf(i).credentialRequired, i.tool) <==> i.credentialClass.Some?
    ensures BindsCredential(RowsOf(i).credentialBinding, i.tool, i.scope)
       <==> i.binding.Some? && i.binding.value.tool == i.tool && i.binding.value.scope == i.scope
            && i.binding.value.refStatus == "active" && !i.binding.value.exposesSecret
  {
    var db := RowsOf(i);
    if i.credentialClass.Some? {
      assert CredentialRequiredRow(i.tool, i.credentialClass.value) in db.credentialRequired;
    }
    if i.binding.Some? {
      assert i.binding.value in db.credentialBinding;
    }
  }

  lemma PythonViolations(i: Inputs)
    ensures Kinds(RowsOf(i).violation) == PythonSignals(i).violations
  {
    var rows := RowsOf(i).violation;
    forall k | 0 <= k < |i.violations| ensures i.violations[k] in (set v <- rows :: v.kind) {
      assert rows[k] in rows && rows[k].kind == i.violations[k];
    }
    forall v | v in rows ensures v.kind in i.violations {
      var k :| 0 <= k < |rows| && rows[k] == v;
    }
  }

  /** The rows that the evaluator indexes, and the tables that it asks for one row. */
  lemma PythonHeads(i: Inputs)
    ensures var rows := RowsOf(i);
      && Indexable(rows)
      && rows.session[0] == SessionRow(i.session, i.user, i.team, i.agent, i.goalClass)
      && rows.requestedTool[0].tool == i.tool && rows.requestedResource[0].resource == i.resource
      && rows.toolScope[0] == ToolScopeRow(i.tool, i.scope, i.accessKind, i.risk)
      && rows.resource[0] == ResourceRow(i.resource, i.resourceTeam, i.sensitivity, i.external)
      && rows.schemaState[0] == SchemaRow(i.session, i.tool, i.schemaValid, i.schemaRepairable)
      && (rows.agentTrust == [] <==> i.trust.None?)
      && (i.trust.Some? ==> rows.agentTrust[0].belowMinimum == (i.trust.value < i.thresholds.minimum)
                            && rows.agentTrust[0].belowSensitive == (i.trust.value < i.thresholds.sensitive))
      && (DelegationRow(i.session, i.user, i.agent) in rows.delegation <==> i.delegationPresent)
      && (GrantRow(i.session, i.scope, i.resource) in rows.currentGrant <==> i.grantPresent)
      && (rows.contextPath != [] <==> i.contextPath != [])
  {
  }

  /** The signals that come from the indexed rows. */
  lemma ReadHeads(i: Inputs)
    ensures Indexable(RowsOf(i))
    ensures var a, b := ReadSignals(RowsOf(i)), PythonSignals(i);
      && a.schemaValid == b.schemaValid && a.schemaRepairable == b.schemaRepairable && a.delegated == b.delegated
      && a.belowMinimum == b.belowMinimum && a.belowSensitive == b.belowSensitive && a.sameTeam == b.sameTeam
      && a.externalWrite == b.externalWrite && a.adminScope == b.adminScope && a.memoryConsistent == b.memoryConsistent
      && a.grantPresent == b.grantPresent
  {
    hide RowsOf, LowStakes, ADMIN_SCOPES, FirstMode, RequiresCredential, BindsCredential, PredictsTool, PredictsScope,
         Flagged, HasUnreified, Kinds;
    PythonHeads(i);
  }

  /** The signals that come from the tests over all rows of a table. */
  lemma ReadTests(i: Inputs)
    requires Indexable(RowsOf(i))
    ensures var a, b := ReadSignals(RowsOf(i)), PythonSignals(i);
      && a.predictsTool == b.predictsTool && a.predictsScope == b.predictsScope && a.approvalMode == b.approvalMode
      && a.externalWritePredicted == b.externalWritePredicted && a.breakGlass == b.breakGlass && a.violations == b.violations
      && a.unreifiedHit == b.unreifiedHit && a.snapshotPresent == b.snapshotPresent
  {
    hide RowsOf, LowStakes, ADMIN_SCOPES, FirstMode, RequiresCredential, BindsCredential, PredictsTool, PredictsScope,
         Flagged, HasUnreified, Kinds;
    PythonHeads(i);
    PythonFlags(i);
    PythonRecipe(i);
    PythonViolations(i);
  }

  lemma ReadAutomation(i: Inputs)
    requires Indexable(RowsOf(i))
    ensures ReadSignals(RowsOf(i)).safeToAutomate == PythonSignals(i).safeToAutomate
  {
    hide RowsOf, LowStakes, ADMIN_SCOPES, FirstMode, RequiresCredential, BindsCredential, PredictsTool, PredictsScope,
         Flagged, HasUnreified, Kinds;
    PythonHeads(i);
    PythonCredential(i);
  }

  /** On compiled rows, the evaluator reads the Python signals. */
  lemma ReadSignalsOf(i: Inputs)
    ensures Indexable(RowsOf(i)) && ReadSignals(RowsOf(i)) == PythonSignals(i)
  {
    hide RowsOf, ReadSignals, PythonSignals;
    ReadHeads(i);
    ReadTests(i);
    ReadAutomation(i);
  }

  // ---- The two texts compared ----

  /** What `_evaluate_with_python` returns for a compiled fact set. */
  function PythonResult(i: Inputs): Candidate {
    Outcome(Winner(PythonSignals(i)))
  }

  /** The evaluator returns `PythonResult`; every Datalog row that is not a DENY is that very result. */
  method RunBoth(i: Inputs) returns (selected: Candidate, candidates: seq<Candidate>)
    ensures selected == PythonResult(i)
    ensures forall c :: c in EffectiveQuery(RowsOf(i)) && c.decision != Deny ==> c == selected
    ensures i.score >= MIN_RECIPE_SCORE ==> EffectiveQuery(RowsOf(i)) == {selected}
    ensures i.score >= MIN_RECIPE_SCORE && i.reified ==> CandidateQuery(RowsOf(i)) == (set c <- candidates :: c)
  {
    hide EffectiveQuery, CandidateQuery, Winner, SignalsOf, Fires, RowsOf, ReadSignals;
    ReadSignalsOf(i);
    selected, candidates := EvaluateWithPython(RowsOf(i));
    DatalogRefinesPython(i);
    if i.score >= MIN_RECIPE_SCORE {
      AgreeOnGoodScores(i);
      if i.reified {
        forall c ensures c in CandidateQuery(RowsOf(i)) <==> c in candidates {
          CandidatesCoincide(i, c);
        }
      }
    }
  }

  /** Every rule but the recipe ones reads both sets of signals alike; a recipe can only count for less in Datalog. */
  lemma DatalogDeniesMore(i: Inputs)
    ensures HardDenied(PythonSignals(i)) ==> HardDenied(DatalogSignals(i))
    ensures !HardDenied(DatalogSignals(i)) && i.schemaValid ==>
              KnownRecipe(i) && i.reified && i.score >= MIN_RECIPE_SCORE && DatalogSignals(i) == PythonSignals(i)
    ensures !i.schemaValid ==> (HardDenied(PythonSignals(i)) <==> HardDenied(DatalogSignals(i)))
  {
    hide RowsOf, ADMIN_SCOPES, SafeToAutomate;
    var d, p := DatalogSignals(i), PythonSignals(i);
    forall rule | IsHardDeny(rule) && !rule.DenyUnpredictedTool? ensures HardFires(rule, p) == HardFires(rule, d) {
    }
    assert HardFires(DenyUnpredictedTool, p) ==> HardFires(DenyUnpredictedTool, d);
    if !HardDenied(d) && i.schemaValid {
      assert !HardFires(DenyUnpredictedTool, d) && !HardFires(DenyUnreifiedRecipeHit, d);
    }
    if !i.schemaValid {
      assert !HardFires(DenyUnpredictedTool, d);
    }
  }

  /** A rule that fires and outranks every other rule that fires is the winner. */
  lemma WinnerIs(s: Signals, rule: Rule)
    requires Fires(rule, s)
    requires forall r :: Fires(r, s) ==> Precedence(r) <= Precedence(rule)
    ensures Winner(s) == rule
  {
    hide Fires, Winner;
    WinnerIsMaximal(s, rule);
  }

  lemma SameWinner(a: Signals, b: Signals)
    requires forall rule :: Fires(rule, a) == Fires(rule, b)
    ensures Winner(a) == Winner(b)
  {
    hide Fires, Winner;
    DefaultFires(a);
    WinnerIsMaximal(a, DenyDefault);
    WinnerIsMaximal(b, Winner(a));
    WinnerIsMaximal(a, Winner(b));
  }

  lemma DefaultFires(s: Signals)
    ensures Fires(DenyDefault, s)
  {
  }

  /** Without a valid schema, the recipe has no say, and the same rules fire in both texts. */
  lemma InvalidSchemaFiresAlike(i: Inputs)
    requires !i.schemaValid
    ensures Winner(DatalogSignals(i)) == Winner(PythonSignals(i))
  {
    hide RowsOf, ADMIN_SCOPES, SafeToAutomate;
    hide Winner, HardDenied;
    DatalogDeniesMore(i);
    var d, p := DatalogSignals(i), PythonSignals(i);
    forall rule ensures Fires(rule, d) == Fires(rule, p) {
      if IsHardDeny(rule) {
        assert HardFires(rule, d) == HardFires(rule, p);
      }
    }
    SameWinner(d, p);
  }

  /** Every Datalog decision other than DENY is exactly what the Python evaluator returns. */
  lemma DatalogRefinesPython(i: Inputs)
    ensures forall c :: c in EffectiveQuery(RowsOf(i)) && c.decision != Deny ==> c == PythonResult(i)
  {
    hide EffectiveQuery, RowsOf, Winner, SignalsOf, HardDenied;
    EffectiveQueryOf(i);
    DatalogDeniesMore(i);
    WinnerOfHardDeny(DatalogSignals(i));
    if !i.schemaValid {
      InvalidSchemaFiresAlike(i);
    }
  }

  /** When a hard deny fires in both questions, and they agree on everything above it, they have the same winner. */
  lemma HardWinnersAgree(a: Signals, b: Signals, floor: Rule)
    requires IsHardDeny(floor) && HardFires(floor, a) && HardFires(floor, b)
    requires forall rule :: IsHardDeny(rule) && Precedence(rule) >= Precedence(floor) ==> HardFires(rule, a) == HardFires(rule, b)
    ensures Winner(a) == Winner(b)
  {
    hide Winner, HardFires;
    WinnerOfHardDeny(a);
    WinnerOfHardDeny(b);
    WinnerIsMaximal(a, floor);
    WinnerIsMaximal(b, floor);
    WinnerIsMaximal(a, Winner(b));
    WinnerIsMaximal(b, Winner(a));
  }

  /** An unreified hit is refused by both texts with a precedence above everything that they see differently. */
  lemma UnreifiedFiresAlike(i: Inputs)
    requires KnownRecipe(i) && !i.reified
    ensures Winner(DatalogSignals(i)) == Winner(PythonSignals(i))
  {
    hide RowsOf, ADMIN_SCOPES, SafeToAutomate;
    hide Winner;
    HardWinnersAgree(DatalogSignals(i), PythonSignals(i), DenyUnreifiedRecipeHit);
  }

  /** With a score of at least 0.82 the two texts return the same row. */
  lemma AgreeOnGoodScores(i: Inputs)
    requires i.score >= MIN_RECIPE_SCORE
    ensures EffectiveQuery(RowsOf(i)) == {PythonResult(i)}
  {
    hide EffectiveQuery, RowsOf, Winner;
    EffectiveQueryOf(i);
    if KnownRecipe(i) && !i.reified {
      UnreifiedFiresAlike(i);
    } else {
      assert DatalogSignals(i) == PythonSignals(i);
    }
  }

  /** With a score of at least 0.82 and a reified hit, the two candidate sets are the same. */
  lemma CandidatesCoincide(i: Inputs, c: Candidate)
    requires i.score >= MIN_RECIPE_SCORE && i.reified
    ensures c in CandidateQuery(RowsOf(i)) <==> Fires(c.rule, PythonSignals(i)) && c == Outcome(c.rule)
  {
    hide CandidateQuery, RowsOf, Fires;
    assert DatalogSignals(i) == PythonSignals(i);
    CandidateQueryOf(i, c);
  }

  /** A recipe hit whose low score only Datalog minds: nothing else stands in the way of the call. */
  predicate OnlyScoreObjects(i: Inputs) {
    KnownRecipe(i) && i.recipePredictsTool && i.schemaValid && i.score < MIN_RECIPE_SCORE && !HardDenied(PythonSignals(i))
  }

  /** The two texts return different rows exactly when the low score of a predicting hit is the only objection. */
  lemma DisagreeIffOnlyScoreObjects(i: Inputs)
    ensures EffectiveQuery(RowsOf(i)) != {PythonResult(i)} <==> OnlyScoreObjects(i)
  {
    hide EffectiveQuery, RowsOf, Winner;
    EffectiveQueryOf(i);
    var d, p := DatalogSignals(i), PythonSignals(i);
    if i.score >= MIN_RECIPE_SCORE {
      AgreeOnGoodScores(i);
    } else if !i.schemaValid {
      InvalidSchemaFiresAlike(i);
    } else if !KnownRecipe(i) || !i.recipePredictsTool {
      UnpredictedFiresAlike(i);
    } else if HardDenied(p) {
      OtherDenyFiresAlike(i);
    } else {
      assert HardFires(DenyUnpredictedTool, d);
      WinnerOfHardDeny(d);
      WinnerOfHardDeny(p);
      assert Outcome(Winner(d)) != Outcome(Winner(p));
    }
  }

  /** When no recipe predicts the tool at all, both texts refuse with the same best reason. */
  lemma UnpredictedFiresAlike(i: Inputs)
    requires i.schemaValid && (!KnownRecipe(i) || !i.recipePredictsTool)
    ensures Winner(DatalogSignals(i)) == Winner(PythonSignals(i))
  {
    hide RowsOf, ADMIN_SCOPES, SafeToAutomate;
    hide Winner;
    HardWinnersAgree(DatalogSignals(i), PythonSignals(i), DenyUnpredictedTool);
  }

  /** When a predicting recipe meets another hard deny, that deny outranks the one about the recipe. */
  lemma OtherDenyFiresAlike(i: Inputs)
    requires i.schemaValid && KnownRecipe(i) && i.recipePredictsTool && HardDenied(PythonSignals(i))
    ensures Winner(DatalogSignals(i)) == Winner(PythonSignals(i))
  {
    hide RowsOf, ADMIN_SCOPES, SafeToAutomate;
    hide Winner;
    var floor :| IsHardDeny(floor) && HardFires(floor, PythonSignals(i));
    assert floor != DenyUnpredictedTool && floor != DenySchemaInvalid;
    HardWinnersAgree(DatalogSignals(i), PythonSignals(i), floor);
  }

  // ---- Monotonicity ----

  /** The decision of the engine lets the call run. */
  predicate Executes(i: Inputs) {
    exists c :: c in EffectiveQuery(RowsOf(i)) && Executable(c.decision)
  }

  lemma ExecutesIffGrants(i: Inputs)
    ensures Executes(i) <==> Grants(DatalogSignals(i))
  {
    hide EffectiveQuery, RowsOf, Winner, SignalsOf, Grants;
    EffectiveQueryOf(i);
    ExecutableIffGrants(DatalogSignals(i));
    assert Outcome(Winner(DatalogSignals(i))) in EffectiveQuery(RowsOf(i));
  }

  /** Fewer hard denies and nothing else worse: what was granted stays granted. */
  lemma GrantsMonotone(a: Signals, b: Signals)
    requires Grants(a)
    requires forall rule :: IsHardDeny(rule) && HardFires(rule, b) ==> HardFires(rule, a)
    requires b.schemaValid == a.schemaValid && b.predictsTool == a.predictsTool && b.sameTeam == a.sameTeam
    requires LowTrustExternalWrite(b) ==> LowTrustExternalWrite(a)
    requires b.grantPresent == a.grantPresent && b.memoryConsistent == a.memoryConsistent
    requires b.predictsScope == a.predictsScope && b.approvalMode == a.approvalMode && b.safeToAutomate == a.safeToAutomate
    ensures Grants(b)
  {
  }

  /** Raising the trust score of the agent never blocks a call that could run. */
  lemma RaisingTrustKeepsExecutable(i: Inputs, score: int)
    requires i.trust.Some? && score >= i.trust.value
    requires Executes(i)
    ensures Executes(i.(trust := Some(score)))
  {
    hide EffectiveQuery, RowsOf, Winner, Executes;
    var j := i.(trust := Some(score));
    ExecutesIffGrants(i);
    ExecutesIffGrants(j);
    var a, b := DatalogSignals(i), DatalogSignals(j);
    GrantsMonotone(a, b);
  }

  /** Adding the delegation never blocks a call that could run. */
  lemma AddingDelegationKeepsExecutable(i: Inputs)
    requires Executes(i)
    ensures Executes(i.(delegationPresent := true))
  {
    hide EffectiveQuery, RowsOf, Winner, Executes;
    var j := i.(delegationPresent := true);
    ExecutesIffGrants(i);
    ExecutesIffGrants(j);
    GrantsMonotone(DatalogSignals(i), DatalogSignals(j));
  }

  /** Removing violations never blocks a call that could run. */
  lemma RemovingViolationsKeepsExecutable(i: Inputs, violations: seq<string>)
    requires forall v :: v in violations ==> v in i.violations
    requires Executes(i)
    ensures Executes(i.(violations := violations))
  {
    hide EffectiveQuery, RowsOf, Winner, Executes;
    var j := i.(violations := violations);
    ExecutesIffGrants(i);
    ExecutesIffGrants(j);
    GrantsMonotone(DatalogSignals(i), DatalogSignals(j));
  }

  /** Adding the exact grant keeps an executable call executable exactly when its context path is not empty. */
  lemma AddingGrantKeepsExecutableIff(i: Inputs)
    requires Executes(i)
    ensures Executes(i.(grantPresent := true)) <==> i.contextPath != []
  {
    hide EffectiveQuery, RowsOf, Winner, Executes;
    var j := i.(grantPresent := true);
    ExecutesIffGrants(i);
    ExecutesIffGrants(j);
    var a, b := DatalogSignals(i), DatalogSignals(j);
    assert forall rule :: IsHardDeny(rule) ==> HardFires(rule, a) == HardFires(rule, b);
  }

  /** With a context snapshot, as the gateway always sets, adding the exact grant never blocks a call that could run. */
  lemma AddingGrantWithSnapshotKeepsExecutable(i: Inputs)
    requires i.snapshotPresent && Executes(i)
    ensures Executes(i.(grantPresent := true))
  {
    hide EffectiveQuery, RowsOf, Winner, Executes;
    ExecutesIffGrants(i);
    assert !HardFires(DenyMissingContextPath, DatalogSignals(i));
    AddingGrantKeepsExecutableIff(i);
  }

  /** A call that auto-approval lets run without a context path. */
  const PATHLESS := Inputs(
    session := "sess", user := "user", team := "team", agent := "agent", goalClass := "goal",
    tool := "tool", resource := "resource", recipe := "recipe", scope := "scope", resourceTeam := "team",
    schemaValid := true, schemaRepairable := false,
    accessKind := "read", risk := "low", external := false, sensitivity := "normal",
    grantPresent := false, delegationPresent := true, recipePredictsTool := true, approvalMode := Some("auto_approve"),
    reified := true, score := 1000, contextPath := [],
    credentialClass := None, binding := None, judges := [],
    violations := [], snapshotPresent := false, breakGlass := None, externalWritePredicted := None,
    trust := None, thresholds := Thresholds(500, 800))

  /** Without a context snapshot, adding a grant can block a call that could run. */
  lemma AddingGrantCanBlock()
    ensures Executes(PATHLESS) && !Executes(PATHLESS.(grantPresent := true))
  {
    hide EffectiveQuery, RowsOf, Winner, Executes;
    ExecutesIffGrants(PATHLESS);
    var s := DatalogSignals(PATHLESS);
    assert forall rule :: IsHardDeny(rule) ==> !HardFires(rule, s);
    AddingGrantKeepsExecutableIff(PATHLESS);
  }

  /** A predicted call with a grant and a context path, whose recipe hit scored 0.5. */
  const LOW_SCORE := PATHLESS.(grantPresent := true, contextPath := ["sess"], score := 500)

  /** On it the two programs disagree about more than a text: Python allows what the Datalog program does not. */
  lemma LowScoreDisagrees()
    ensures OnlyScoreObjects(LOW_SCORE) && EffectiveQuery(RowsOf(LOW_SCORE)) != {PythonResult(LOW_SCORE)}
    ensures PythonResult(LOW_SCORE).decision == Allow && !Executes(LOW_SCORE)
  {
    hide EffectiveQuery, RowsOf, Winner, Executes;
    var s := PythonSignals(LOW_SCORE);
    assert forall rule :: IsHardDeny(rule) ==> !HardFires(rule, s);
    DisagreeIffOnlyScoreObjects(LOW_SCORE);
    ExecutableIffGrants(s);
    ExecutesIffGrants(LOW_SCORE);
  }
}
