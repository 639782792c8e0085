/** The whole story of an escalated call: escalate, approve, wait, ask again, run. */
module GatewayScenario {
  import opened Wrappers
  import opened Canonical
  import opened PolicyTable
  import opened PolicyRows
  import opened PolicyCompile
  import opened GrantLifecycle
  import opened GraphFallback
  import opened GatewayContext
  import opened GatewayJustification
  import opened Ledger
  import opened Gateway
  import opened GatewayRecipes
  import opened GatewayApproval
  import LedgerInvariant
  import GatewaySafety
  import Checks = AuthorizationChecks

  // ---- Escalating ----

  predicate AsksFor(r: Request, q: Question, scope: string) {
    r.status == Status.Pending && Matches(r, q.session, scope, q.resource, q.tool)
  }

  /** Opening a request leaves exactly that kind of request pending, and touches neither clock nor grants. */
  lemma RequestIsOpened(s: Store, a: RequestArgs)
    ensures exists r :: r in CreateRequest(s, a).requests && r.status == Status.Pending && Matches(r, a.session, a.scope, a.resource, a.tool)
    ensures CreateRequest(s, a).now == s.now && CreateRequest(s, a).grants == s.grants
  {
    var t := CreateRequest(s, a);
    var p := PendingIndex(s.requests, a);
    assert t.requests[if p.Some? then p.value else |s.requests|] in t.requests;
  }

  /** The answer waits for a human: a request is pending for the scope, and neither clock nor similarity rows changed. */
  ghost predicate WaitsForHuman(w: World, w1: World, auth: Option<Auth>, q: Question, scope: string) {
    && DecidedAs(auth, Decision.EscalateHuman)
    && (exists r :: r in w1.store.requests && AsksFor(r, q, scope))
    && w1.similarity == w.similarity && w1.store.now == w.store.now
  }

  lemma RecordedEscalation(cfg: Config, w: World, q: Question, p: Picture, ctx: Context, id: nat, snapshot: nat, scope: string)
    requires id in w.checks.decisions && id in w.checks.checks
    requires w.checks.decisions[id].decision == Decision.EscalateHuman && w.checks.decisions[id].requiredScope == scope != ""
    ensures var (w1, auth) := Recorded(cfg, w, q, p, ctx, id, snapshot); WaitsForHuman(w, w1, Some(auth), q, scope)
  {
    hide StateText, CreateRequest, RecipeFromPath;
    var d, decision := w.checks.decisions[id], w.store.nextId;
    var recorded := Log(w.store.(nextId := decision + 1), q.session,
      DecisionRecorded(decision, id, StateText(w.checks.checks[id].state), d.decision, q.tool, q.resource, snapshot, d.proofHash));
    RequestIsOpened(recorded, RequestFor(p, q, ctx, d));
  }

  /** A freshly escalated question leaves a pending request for the tool's scope behind. */
  lemma EscalationOpensRequest(cfg: Config, ready: World, s: SessionRec, q: Question, p: Picture, i: Inputs)
    requires q.engineUp && Escalated(cfg, ready, s, q, p, i) && p.ts.scope != ""
    requires (q.session, KeyOf(cfg, ready, s, q, p)) !in ready.checks.index
    ensures var (w1, auth) := Decided(cfg, ready, s, q, p); WaitsForHuman(ready, w1, auth, q, p.ts.scope)
  {
    hide QuestionContext, IdempotencyKey, ReadInputs, Winner, DatalogSignals, Look, Evaluated, Recorded;
    EscalatedWithoutGrant(cfg, ready, s, q, p, i);
    var ctx, snapshot := QuestionContext(cfg, ready, s, q, p), ready.store.nextId;
    FreshCheck(cfg, ready, q, ctx, i);
    var (checks, id) := Evaluated(cfg, ready.checks, q, ctx);
    var asked := Log(ready.store.(nextId := snapshot + 1), q.session, Requested(q, snapshot, IdempotencyKey(cfg.sha, ctx)));
    RecordedEscalation(cfg, ready.(store := asked, checks := checks), q, p, ctx, id, snapshot, p.ts.scope);
  }

  // ---- Approving ----

  /**
   * A human grant lives through any run: it is active exactly while fewer than its five uses are logged and its hour is
   * not over.
   */
  lemma ApprovalGrants(cfg: Config, w: World, r: Request, approver: string, steps: seq<Step>, w3: World)
    requires GatewaySafety.Inv(w) && r in w.store.requests && r.status == Status.Pending
    requires w3 == Run(cfg, Apply(cfg, w, ApproveStep(r.id, approver)), steps)
    ensures exists g :: g in w3.store.grants && g.id == w.store.nextId && Grants(g, r)
                        && (SqlActive(g, w3.store.now)
                            <==> LedgerInvariant.Uses(w3.store.log, g.id) < 5 && w3.store.now < w.store.now + 3600)
  {
    hide GatewaySafety.Inv, GatewaySafety.Grows, Apply, Run, LedgerInvariant.Uses, ApproveRequest;
    var w2 := Apply(cfg, w, ApproveStep(r.id, approver));
    var k := |w.store.grants|;
    GatewaySafety.StepKeepsInv(cfg, w, ApproveStep(r.id, approver));
    GatewaySafety.EveryRunKeepsInv(cfg, w2, steps);
    ApprovalApplies(cfg, w, r, approver);
    var g := GrantSurvives(w2, w3, k);
  }

  /** The grant is for what the request asked. */
  predicate Grants(g: Grant, r: Request) {
    g.session == r.session && g.scope == r.scope && g.resource == r.resource
  }

  /** The last grant is a fresh one for what the request asked. */
  predicate GrantAdded(before: Store, after: Store, r: Request) {
    && |after.grants| == |before.grants| + 1
    && var g := after.grants[|before.grants|];
       g.id == before.nextId && Grants(g, r) && g.initial == 5 && g.expiresAt == Some(before.now + 3600)
  }

  lemma ApprovalInserts(s: Store, r: Request, approver: string)
    requires LedgerInvariant.Inv(s) && r in s.requests && r.status == Status.Pending
    ensures ApproveRequest(s, r.id, approver).Ok? && GrantAdded(s, ApproveRequest(s, r.id, approver).value, r)
  {
  }

  lemma ApprovalApplies(cfg: Config, w: World, r: Request, approver: string)
    requires GatewaySafety.Inv(w) && r in w.store.requests && r.status == Status.Pending
    ensures GrantAdded(w.store, Apply(cfg, w, ApproveStep(r.id, approver)).store, r)
  {
    hide LedgerInvariant.Inv, GatewaySafety.Tracked, Checks.Inv, ApproveRequest, RunPreflight, RunAuthorize, BeginCall,
         ConsumeForCall, ExecuteForCall;
    ApprovalInserts(w.store, r, approver);
  }

  lemma GrantSurvives(a: World, b: World, k: nat) returns (g: Grant)
    requires GatewaySafety.Inv(b) && GatewaySafety.Grows(a, b) && k < |a.store.grants|
    ensures g in b.store.grants && g == a.store.grants[k].(remaining := g.remaining)
    ensures g.initial == g.remaining + LedgerInvariant.Uses(b.store.log, g.id)
  {
    g := b.store.grants[k];
    assert LedgerInvariant.GrantOk(g, b.store.log, b.store.nextId);
  }

  // ---- Asking again ----

  /** The call is allowed and consumes a grant. */
  predicate GoesThrough(cfg: Config, w: World, q: Question, tie: nat) {
    hide BeginCall, ConsumeForCall;
    var (w4, auth) := BeginCall(cfg, w, q);
    DecidedAs(auth, Decision.Allow) && HoldsGrant(ConsumeForCall(cfg, w4, auth.value.decision, tie), auth.value.decision)
  }

  predicate HoldsGrant(w: World, d: nat) {
    d in w.calls && w.calls[d].grant.Some?
  }

  /** An allowing answer changes neither grants nor clock. */
  lemma AllowKeepsGrants(cfg: Config, w: World, q: Question)
    requires AnswersWith(cfg, w, q, Decision.Allow)
    ensures RunAuthorize(cfg, w, q).0.store.grants == w.store.grants && RunAuthorize(cfg, w, q).0.store.now == w.store.now
  {
    hide Look, SaveHits, HitsFor, QuestionContext, Evaluated, IdempotencyKey, StateText;
  }

  /** An allowed call with a live grant of its scope consumes one. */
  lemma AllowedCallConsumes(cfg: Config, w: World, q: Question, p: Picture, tie: nat)
    requires FindToolScope(cfg.catalog, q.tool) == Some(p.ts)
    requires ActiveGrantFor(w.store.grants, q.session, p.ts.scope, q.resource, w.store.now)
    requires AnswersWith(cfg, Announced(w, q), q, Decision.Allow)
    ensures GoesThrough(cfg, w, q, tie)
  {
    hide SqlActive, RunAuthorize, Announced;
    AnnouncedKeeps(w, q);
    AllowKeepsGrants(cfg, Announced(w, q), q);
    var w4 := BeginCall(cfg, w, q).0;
    var g :| g in w.store.grants && g.session == q.session && g.scope == p.ts.scope && g.resource == q.resource && SqlActive(g, w.store.now);
    assert p.ts in cfg.catalog.toolScopes && p.ts.tool == q.tool;
    assert Consumable(g, cfg.catalog.toolScopes, q.session, q.tool, q.resource, w4.store.now);
    var k :| 0 <= k < |w4.store.grants| && w4.store.grants[k] == g;
    assert Consumable(w4.store.grants[k], cfg.catalog.toolScopes, q.session, q.tool, q.resource, w4.store.now);
  }

  lemma EscalatedLooks(cfg: Config, w: World, s: SessionRec, q: Question, p: Picture, i: Inputs)
    requires Escalated(cfg, w, s, q, p, i)
    ensures Look(w.graph, q.session, q.tool, q.resource, w.store.now, cfg.parse) == Ok(p)
  {
  }

  lemma ToolScopeFound(cfg: Config, w: World, s: SessionRec, q: Question, p: Picture, i: Inputs)
    requires Escalated(cfg, w, s, q, p, i)
    ensures FindToolScope(cfg.catalog, q.tool) == Some(p.ts)
  {
    hide Look, ReadInputs, Winner, DatalogSignals, QuestionContext;
    FoundRows(w.graph, q.session, q.tool, q.resource, w.store.now, cfg.parse, p);
  }

  /** The world that a call prepares once it is announced. */
  function Ready(cfg: Config, w: World, s: SessionRec, q: Question): World {
    Prepared(cfg, Announced(w, q), s)
  }

  /** The key of the question once the grant is there. */
  function GrantedKey(cfg: Config, w: World, s: SessionRec, q: Question, p: Picture): string {
    KeyOf(cfg, Ready(cfg, w, s, q), s, q, p.(grantPresent := true))
  }

  /**
   * A question was escalated in one world. In any later world with a live matching grant, whatever happened in between,
   * the same question has another key, and unless some earlier check already used that key, a call with it is allowed
   * and consumes a grant.
   */
  lemma LiveGrantUnblocks(
    cfg: Config, before: World, s: SessionRec, q: Question, p: Picture, i: Inputs, w: World, tie: nat)
    requires PerfectHash(cfg.sha) && DistinctRecipes(cfg.catalog.recipes)
    requires RowsAreHits(cfg.catalog, before.similarity) && RowsAreHits(cfg.catalog, w.similarity)
    requires MayAsk(cfg, s, q) && Escalated(cfg, Prepared(cfg, before, s), s, q, p, i)
    requires ActiveGrantFor(w.store.grants, q.session, p.ts.scope, q.resource, w.store.now)
    ensures GrantedKey(cfg, w, s, q, p) != KeyOf(cfg, Prepared(cfg, before, s), s, q, p)
    ensures (q.session, GrantedKey(cfg, w, s, q, p)) !in w.checks.index ==> GoesThrough(cfg, w, q, tie)
  {
    hide Look, Prepared, Announced, KeyOf, RowsAreHits, DistinctRecipes, ActiveGrantFor, GoesThrough, GrantPresent,
         FindSession, Escalated, AnswersWith;
    var ready := Ready(cfg, w, s, q);
    EscalatedLooks(cfg, Prepared(cfg, before, s), s, q, p, i);
    AnnouncedKeeps(w, q);
    PreparedSaves(cfg, Announced(w, q), s);
    PicturesDifferInGrant(cfg, before, Announced(w, q), s, q.tool, q.resource, Prepared(cfg, before, s).store.now, ready.store.now, p);
    var now := p.(grantPresent := GrantPresent(ready.graph.grants, q.session, p.ts.scope, q.resource, ready.store.now, cfg.parse));
    GrantUnblocks(cfg, Prepared(cfg, before, s), Announced(w, q), ready, s, q, p, i, now);
    assert now == p.(grantPresent := true);
    if (q.session, GrantedKey(cfg, w, s, q, p)) !in w.checks.index {
      ToolScopeFound(cfg, Prepared(cfg, before, s), s, q, p, i);
      AllowedCallConsumes(cfg, w, q, p, tie);
    }
  }

  /**
   * The whole story, in any interleaving. The gateway escalates a question. Agents do whatever they do until a human
   * approves the request that is pending for it; they go on doing whatever they do. As long as the hour is not over and
   * fewer than five uses of the new grant are logged, the same question has another key, and unless some earlier check
   * already used that key, a call with it is allowed and consumes a grant.
   */
  lemma ApprovalUnblocks(
    cfg: Config, w: World, s: SessionRec, q: Question, p: Picture, i: Inputs, until: seq<Step>, w1: World,
    r: Request, approver: string, after: seq<Step>, w3: World, tie: nat)
    requires PerfectHash(cfg.sha) && DistinctRecipes(cfg.catalog.recipes)
    requires GatewaySafety.Inv(w) && RowsAreHits(cfg.catalog, w.similarity)
    requires MayAsk(cfg, s, q) && Escalated(cfg, Prepared(cfg, w, s), s, q, p, i)
    requires w1 == Run(cfg, w, until) && r in w1.store.requests && AsksFor(r, q, p.ts.scope)
    requires w3 == Run(cfg, Apply(cfg, w1, ApproveStep(r.id, approver)), after)
    requires w3.store.now < w1.store.now + 3600 && LedgerInvariant.Uses(w3.store.log, w1.store.nextId) < 5
    ensures GrantedKey(cfg, w3, s, q, p) != KeyOf(cfg, Prepared(cfg, w, s), s, q, p)
    ensures (q.session, GrantedKey(cfg, w3, s, q, p)) !in w3.checks.index ==> GoesThrough(cfg, w3, q, tie)
  {
    hide GatewaySafety.Inv, GatewaySafety.Grows, RowsAreHits, DistinctRecipes, Escalated, Prepared, GrantedKey, KeyOf,
         GoesThrough, Apply, Run, SqlActive;
    GatewaySafety.EveryRunKeepsInv(cfg, w, until);
    EveryRunStoresHits(cfg, w, until);
    StepKeepsRows(cfg, w1, ApproveStep(r.id, approver));
    EveryRunStoresHits(cfg, Apply(cfg, w1, ApproveStep(r.id, approver)), after);
    ApprovalGrants(cfg, w1, r, approver, after, w3);
    assert ActiveGrantFor(w3.store.grants, q.session, p.ts.scope, q.resource, w3.store.now);
    LiveGrantUnblocks(cfg, w, s, q, p, i, w3, tie);
  }

  // ---- Approved by the policy itself ----

  /** The last grant is a fresh one for this question: one use, within fifteen minutes. */
  predicate LeavesGrant(before: Store, after: Store, q: Question, scope: string) {
    && |after.grants| == |before.grants| + 1 && after.grants[..|before.grants|] == before.grants && after.now == before.now
    && var g := after.grants[|before.grants|];
       && g.session == q.session && g.scope == scope && g.resource == q.resource && g.issuer == "policy:auto_approve"
       && g.initial == 1 && g.remaining == 1 && g.createdAt == before.now && g.expiresAt == Some(before.now + 900)
  }

  /** The answer is an auto-approval, and the grant is there. */
  ghost predicate ApprovedByPolicy(before: Store, w1: World, auth: Option<Auth>, q: Question, scope: string) {
    DecidedAs(auth, Decision.AutoApprove) && LeavesGrant(before, w1.store, q, scope)
  }

  lemma RecordedApproval(cfg: Config, w: World, q: Question, p: Picture, ctx: Context, id: nat, snapshot: nat, scope: string)
    requires id in w.checks.decisions && id in w.checks.checks
    requires w.checks.decisions[id].decision == Decision.AutoApprove && w.checks.decisions[id].requiredScope == scope != ""
    ensures var (w1, auth) := Recorded(cfg, w, q, p, ctx, id, snapshot); ApprovedByPolicy(w.store, w1, Some(auth), q, scope)
  {
    hide StateText;
  }

  /** A fresh auto-approval leaves a live grant for the question. */
  lemma AutoApprovalLeavesGrant(cfg: Config, ready: World, s: SessionRec, q: Question, p: Picture, i: Inputs)
    requires q.engineUp && ReadInputs(QuestionContext(cfg, ready, s, q, p), cfg.thresholds) == Ok(i)
    requires Winner(DatalogSignals(i)) == AutoApproveRecipeScope && i.scope == p.ts.scope != ""
    requires (q.session, KeyOf(cfg, ready, s, q, p)) !in ready.checks.index
    ensures var (w1, auth) := Decided(cfg, ready, s, q, p); ApprovedByPolicy(ready.store, w1, auth, q, p.ts.scope)
  {
    hide QuestionContext, IdempotencyKey, ReadInputs, Winner, DatalogSignals, Evaluated, Recorded;
    var ctx, snapshot := QuestionContext(cfg, ready, s, q, p), ready.store.nextId;
    FreshCheck(cfg, ready, q, ctx, i);
    var (checks, id) := Evaluated(cfg, ready.checks, q, ctx);
    var asked := Log(ready.store.(nextId := snapshot + 1), q.session, Requested(q, snapshot, IdempotencyKey(cfg.sha, ctx)));
    RecordedApproval(cfg, ready.(store := asked, checks := checks), q, p, ctx, id, snapshot, p.ts.scope);
  }

  /** The call got an executable answer and consumes a grant. */
  predicate RunsOn(cfg: Config, w4: World, auth: Option<Auth>, tie: nat) {
    hide ConsumeForCall;
    auth.Some? && HoldsGrant(ConsumeForCall(cfg, w4, auth.value.decision, tie), auth.value.decision)
  }

  lemma LeftGrantIsConsumed(cfg: Config, before: Store, w4: World, q: Question, auth: Auth, p: Picture, tie: nat)
    requires FindToolScope(cfg.catalog, q.tool) == Some(p.ts) && LeavesGrant(before, w4.store, q, p.ts.scope)
    requires auth.decision in w4.calls && w4.calls[auth.decision] == Call(q.session, q.tool, q.resource, auth, None)
    ensures RunsOn(cfg, w4, Some(auth), tie)
  {
    var k := |before.grants|;
    assert p.ts in cfg.catalog.toolScopes && p.ts.tool == q.tool;
    assert Consumable(w4.store.grants[k], cfg.catalog.toolScopes, q.session, q.tool, q.resource, w4.store.now);
  }

  /** A tool call that the policy approves by itself consumes a grant at once: it needs nobody else. */
  lemma AutoApprovalGoesThrough(cfg: Config, w: World, s: SessionRec, q: Question, p: Picture, i: Inputs, tie: nat)
    requires MayAsk(cfg, s, q) && FindToolScope(cfg.catalog, q.tool) == Some(p.ts)
    requires var ready := Ready(cfg, w, s, q);
      && Look(ready.graph, q.session, q.tool, q.resource, ready.store.now, cfg.parse) == Ok(p)
      && ReadInputs(QuestionContext(cfg, ready, s, q, p), cfg.thresholds) == Ok(i)
      && (q.session, KeyOf(cfg, ready, s, q, p)) !in ready.checks.index
    requires Winner(DatalogSignals(i)) == AutoApproveRecipeScope && i.scope == p.ts.scope != ""
    ensures var (w4, auth) := BeginCall(cfg, w, q); RunsOn(cfg, w4, auth, tie)
  {
    hide Look, Prepared, Announced, QuestionContext, IdempotencyKey, ReadInputs, Winner, DatalogSignals, Decided, ConsumeForCall,
         LeavesGrant, FindSession, FindToolScope, RunsOn;
    var ready := Ready(cfg, w, s, q);
    AutoApprovalLeavesGrant(cfg, ready, s, q, p, i);
    var (w4, auth) := BeginCall(cfg, w, q);
    LeftGrantIsConsumed(cfg, ready.store, w4, q, auth.value, p, tie);
  }
}
