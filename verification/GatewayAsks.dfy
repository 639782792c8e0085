/**
 * What is asked of humans, and how time passes (platform/gateway_service.py): the requests that a preflight and an
 * escalation leave, the record of a decision, the notes of agents, and the clocks.
 */
module GatewayAsks {
  import opened Wrappers
  import opened Text
  import opened Json
  import opened PolicyTable
  import opened PolicyCompile
  import opened PolicyDecide
  import opened GraphFallback
  import opened GatewayContext
  import opened Ledger
  import opened LedgerCases
  import opened Gateway
  import opened GatewayRecipes
  import GatewaySafety
  import GraphLook
  import Checks = AuthorizationChecks

  // ---- Preflight ----

  /** A request that a preflight foresaw, waiting for a human. */
  predicate Foreseen(r: Request, session: string, p: Prediction) {
    && r.status == Pending && r.session == session && r.scope == p.scope && r.resource == p.resource && r.tool == p.tool
    && r.origin == "preflight_prediction" && r.early && r.predictionId.Some? && r.confidence.Some?
  }

  predicate PredictionTold(e: Entry, session: string, p: Prediction) {
    && e.session == session && e.event.Other? && e.event.eventType == "scope_predicted" && e.event.body.Obj?
    && Field("prediction_id", Str(p.id)) in e.event.body.fields && Field("scope", Str(p.scope)) in e.event.body.fields
    && Field("approval_mode", Str("human_required")) in e.event.body.fields
  }

  /** Every prediction is on record, and a request for it is pending. */
  ghost predicate AllForeseen(s: Store, session: string, predictions: seq<Prediction>) {
    forall n :: 0 <= n < |predictions| ==> ForeseenIn(s, session, predictions[n])
  }

  ghost predicate ForeseenIn(s: Store, session: string, p: Prediction) {
    && (exists r :: r in s.requests && Foreseen(r, session, p))
    && (exists e :: e in s.log && PredictionTold(e, session, p))
  }

  /** The request of a preflight; only the reason and the traces are left open. */
  predicate AsksAhead(a: RequestArgs) {
    a.origin == "preflight_prediction" && a.early && a.phase == "preflight" && a.predictionId.Some? && a.confidence.Some?
  }

  /** Another request of a preflight leaves what was foreseen foreseen. */
  lemma ForeseenStays(s: Store, a: RequestArgs, r: Request, session: string, p: Prediction)
    requires r in s.requests && Foreseen(r, session, p) && AsksAhead(a)
    ensures exists x :: x in CreateRequest(s, a).requests && Foreseen(x, session, p)
  {
    hide CreateRequest;
    RequestOpensOrRefreshes(s, a);
    var t := CreateRequest(s, a);
    var k :| 0 <= k < |s.requests| && s.requests[k] == r;
    if forall x :: x in s.requests ==> !PendingFor(x, a) {
      assert t.requests[..|s.requests|][k] == r;
      assert r in t.requests;
    } else {
      var i: nat :| i < |s.requests| && PendingFor(s.requests[i], a) && RequestRefreshed(s, t, i, a);
      assert t.requests[k] in t.requests && Foreseen(t.requests[k], session, p);
    }
  }

  /** The request of a preflight is foreseen from now on, also if it was pending for another reason. */
  lemma NowForeseen(s: Store, a: RequestArgs, session: string, p: Prediction)
    requires AsksAhead(a) && a.session == session && a.scope == p.scope && a.resource == p.resource && a.tool == p.tool
    ensures exists x :: x in CreateRequest(s, a).requests && Foreseen(x, session, p)
  {
    hide CreateRequest;
    RequestOpensOrRefreshes(s, a);
    var t := CreateRequest(s, a);
    if forall x :: x in s.requests ==> !PendingFor(x, a) {
      assert t.requests[|s.requests|] in t.requests && Foreseen(t.requests[|s.requests|], session, p);
    } else {
      var i: nat :| i < |s.requests| && PendingFor(s.requests[i], a) && RequestRefreshed(s, t, i, a);
      assert t.requests[i] in t.requests && Foreseen(t.requests[i], session, p);
    }
  }

  lemma LogStays(s: Store, a: RequestArgs, e: Entry)
    requires e in s.log
    ensures e in CreateRequest(s, a).log
  {
    hide CreateRequest;
    RequestOpensOrRefreshes(s, a);
  }

  lemma PredictedTells(session: string, p: Prediction, snapshot: nat)
    ensures PredictionTold(Entry(session, Predicted(p, snapshot)), session, p)
  {
    var f := Predicted(p, snapshot).body.fields;
    assert f[0] == Field("prediction_id", Str(p.id)) && f[3] == Field("scope", Str(p.scope));
    assert f[5] == Field("approval_mode", Str("human_required"));
  }

  /** One more prediction. */
  lemma OneMoreForeseen(s: Store, t: Store, e: Event, a: RequestArgs, session: string, p: Prediction)
    requires t == CreateRequest(Log(s, session, e), a) && AsksAhead(a) && ForeseenIn(s, session, p)
    ensures ForeseenIn(t, session, p)
  {
    hide CreateRequest, Foreseen, PredictionTold, AsksAhead;
    var r :| r in s.requests && Foreseen(r, session, p);
    var x :| x in s.log && PredictionTold(x, session, p);
    ForeseenStays(Log(s, session, e), a, r, session, p);
    LogStays(Log(s, session, e), a, x);
  }

  lemma {:induction false} AnticipatedAll(s: Store, rec: SessionRec, agent: string, snapshot: nat, traces: seq<string>, predictions: seq<Prediction>)
    ensures AllForeseen(Anticipate(s, rec, agent, snapshot, traces, predictions), rec.session, predictions)
  {
    hide CreateRequest, Foreseen, PredictionTold, AsksAhead, ForeseenIn;
    if predictions != [] {
      var n := |predictions| - 1;
      var p := predictions[n];
      AnticipatedAll(s, rec, agent, snapshot, traces, predictions[..n]);
      var before := Anticipate(s, rec, agent, snapshot, traces, predictions[..n]);
      var a := AnticipatedArgs(rec, agent, p, traces);
      var t := Anticipate(s, rec, agent, snapshot, traces, predictions);
      AheadArgs(rec, agent, p, traces);
      forall m | 0 <= m < |predictions| ensures ForeseenIn(t, rec.session, predictions[m]) {
        if m < n {
          assert predictions[..n][m] == predictions[m];
          OneMoreForeseen(before, t, Predicted(p, snapshot), a, rec.session, predictions[m]);
        } else {
          LastForeseen(before, t, rec.session, p, snapshot, a);
        }
      }
    }
  }

  lemma AheadArgs(rec: SessionRec, agent: string, p: Prediction, traces: seq<string>)
    ensures var a := AnticipatedArgs(rec, agent, p, traces);
      && AsksAhead(a) && a.session == rec.session && a.user == rec.user && a.agent == agent && a.scope == p.scope
      && a.resource == p.resource && a.tool == p.tool && a.recipe == Some(p.recipe) && a.proofId == p.proofId
      && a.predictionId == Some(p.id) && a.confidence == Some(p.confidence) && a.traces == traces
      && a.reason == "Preflight predicted this human-required scope from governed recipe memory (" + p.recipe + ")."
  {
  }

  lemma LastForeseen(before: Store, t: Store, session: string, p: Prediction, snapshot: nat, a: RequestArgs)
    requires AsksAhead(a) && a.session == session && a.scope == p.scope && a.resource == p.resource && a.tool == p.tool
    requires t == CreateRequest(Log(before, session, Predicted(p, snapshot)), a)
    ensures ForeseenIn(t, session, p)
  {
    hide CreateRequest, Foreseen, PredictionTold, AsksAhead, Predicted;
    var logged := Log(before, session, Predicted(p, snapshot));
    NowForeseen(logged, a, session, p);
    PredictedTells(session, p, snapshot);
    assert Entry(session, Predicted(p, snapshot)) in logged.log;
    LogStays(logged, a, Entry(session, Predicted(p, snapshot)));
  }

  /** After a preflight of the session's own agent, every predicted scope is on record, and a request for it is pending. */
  lemma EveryPredictionIsRequested(cfg: Config, w: World, s: SessionRec, session: string, agent: string, predictions: seq<Prediction>)
    requires FindSession(cfg.catalog, session) == Some(s) && s.agent == agent
    ensures AllForeseen(RunPreflight(cfg, w, session, agent, true, predictions).store, session, predictions)
  {
    hide AllForeseen, PreflightOpened, FindSession;
    var (started, snapshot, hits) := PreflightOpened(cfg, w, s, agent);
    AnticipatedAll(started.store, s, agent, snapshot, HitRecipes(hits), predictions);
  }

  predicate OpenedAs(s: Store, t: Store, session: string, agent: string, hits: seq<Hit>) {
    && |t.log| == |s.log| + 2 && t.log[..|s.log|] == s.log
    && Names(t.log[|s.log|], session, "preflight_requested", Field("agent_id", Str(agent)))
    && Names(t.log[|s.log| + 1], session, "preflight_completed", Field("recipe_hits", Strings(HitRecipes(hits))))
    && Names(t.log[|s.log| + 1], session, "preflight_completed", Field("snapshot_id", Num(s.nextId)))
  }

  predicate Names(e: Entry, session: string, name: string, f: Field) {
    e.session == session && e.event.Other? && e.event.eventType == name && e.event.body.Obj? && f in e.event.body.fields
  }

  lemma DoneNames(session: string, snapshot: nat, hits: seq<Hit>)
    ensures Names(Entry(session, PreflightDone(snapshot, hits)), session, "preflight_completed", Field("snapshot_id", Num(snapshot)))
    ensures Names(Entry(session, PreflightDone(snapshot, hits)), session, "preflight_completed", Field("recipe_hits", Strings(HitRecipes(hits))))
  {
    var f := PreflightDone(snapshot, hits).body.fields;
    var found := f[1].value.items;
    assert found == Strings(HitRecipes(hits)).items;
    assert f[0] == Field("snapshot_id", Num(snapshot)) && f[1] == Field("recipe_hits", Strings(HitRecipes(hits)));
  }

  /** A preflight opens with who asked, and tells which recipes the search found. */
  lemma PreflightIsTold(cfg: Config, w: World, s: SessionRec, agent: string)
    ensures var (t, snapshot, hits) := PreflightOpened(cfg, w, s, agent);
      hits == SessionHits(cfg.catalog, s) && OpenedAs(w.store, t.store, s.session, agent, hits)
  {
    hide SessionHits, SaveHits, HitRecipes, Strings, PreflightDone;
    var hits := SessionHits(cfg.catalog, s);
    DoneNames(s.session, w.store.nextId, hits);
    assert PreflightAsked(agent).body.fields[0] == Field("agent_id", Str(agent));
  }

  /** The hit at each place is stored for the session with its score and its rank, so that a later question finds it. */
  lemma PreflightStores(cfg: Config, w: World, s: SessionRec, agent: string, k: nat)
    requires DistinctHits(SessionHits(cfg.catalog, s)) && k < |SessionHits(cfg.catalog, s)|
    ensures var h := SessionHits(cfg.catalog, s)[k];
      FirstMatch(PreflightOpened(cfg, w, s, agent).0.similarity, s.session, h.recipe)
      == Some(SimilarityRec(s.session, h.recipe, h.score, k + 1, true))
  {
    hide SessionHits, SaveHits, FirstMatch, PreflightDone, PreflightAsked, DistinctHits;
    GraphLook.StoredWithRank(w.similarity, s.session, SessionHits(cfg.catalog, s), k);
  }

  // ---- Escalation ----

  /** The second entry of the path, if it is a recipe. */
  predicate RecipeNamed(path: seq<string>, recipe: Option<string>) {
    if recipe.Some? then |path| > 1 && path[1] == recipe.value && |path[1]| >= 7 && path[1][..7] == "recipe_"
    else |path| < 2 || |path[1]| < 7 || path[1][..7] != "recipe_"
  }

  /** The request tells why a human is asked, for whom, and that a tool call has reached it. */
  predicate AsksHuman(r: Request, q: Question, p: Picture, ctx: Context, d: PolicyDecision) {
    && r.status == Pending && r.session == q.session && r.tool == q.tool && r.resource == q.resource
    && r.scope == (if d.requiredScope != "" then d.requiredScope else p.ts.scope)
    && r.agent == (if p.s.agent != "" then p.s.agent else q.agent)
    && r.reason == d.reason && r.proofId == d.proofHash && r.phase == "authorize" && r.firstToolCallAt.Some?
    && RecipeNamed(ctx.contextPath, r.recipe)
  }

  lemma RecipeIsNamed(path: seq<string>)
    ensures RecipeNamed(path, RecipeFromPath(path))
  {
  }

  /** A request that an escalation opens is the session's user's, and was not foreseen. */
  lemma EscalationIsUnforeseen(p: Picture, q: Question, ctx: Context, d: PolicyDecision)
    ensures var a := RequestFor(p, q, ctx, d);
      a.user == p.s.user && a.origin == "tool_call_escalation" && !a.early && a.predictionId.None? && a.confidence.None? && a.traces == []
  {
    hide RecipeFromPath;
  }

  /** What an escalated decision leaves: a pending request with its reason and proof. */
  lemma EscalationAsksHuman(cfg: Config, w: World, q: Question, p: Picture, ctx: Context, d: PolicyDecision)
    requires d.decision == EscalateHuman
    ensures exists r :: r in FollowUp(cfg, w, q, p, ctx, d).store.requests && AsksHuman(r, q, p, ctx, d)
  {
    hide CreateRequest, RecipeFromPath, RecipeNamed;
    var a := RequestFor(p, q, ctx, d);
    RecipeIsNamed(ctx.contextPath);
    RequestOpensOrRefreshes(w.store, a);
    var t := CreateRequest(w.store, a);
    if forall x :: x in w.store.requests ==> !PendingFor(x, a) {
      assert t.requests[|w.store.requests|] in t.requests && AsksHuman(t.requests[|w.store.requests|], q, p, ctx, d);
    } else {
      var i: nat :| i < |w.store.requests| && PendingFor(w.store.requests[i], a) && RequestRefreshed(w.store, t, i, a);
      assert t.requests[i] in t.requests && AsksHuman(t.requests[i], q, p, ctx, d);
    }
  }

  // ---- The record of a decision ----

  /** The word for the check's state that goes with a decision. */
  predicate WordFor(word: string, d: Decision) {
    match d
    case Allow => word == "approved"
    case AutoApprove => word == "auto_approved"
    case EscalateHuman => word == "waiting_for_human" || word == "expired" || word == "cancelled"
    case Repair => word == "repairable"
    case Deny => word == "denied"
  }

  /** First the question, with the id of its snapshot, then the answer with the next id, on the same snapshot. */
  ghost predicate ToldAs(s: Store, t: Store, q: Question, a: Auth) {
    && |t.log| >= |s.log| + 2 && t.log[..|s.log|] == s.log && a.decision == s.nextId + 1
    && Names(t.log[|s.log|], q.session, "authorization_check_requested", Field("snapshot_id", Num(s.nextId)))
    && t.log[|s.log| + 1].session == q.session
    && Answers(t.log[|s.log| + 1].event, q, a, s.nextId)
  }

  predicate Answers(e: Event, q: Question, a: Auth, snapshot: nat) {
    && e.DecisionRecorded? && e.decision == a.decision && e.check == a.check && e.verdict == a.verdict && e.proofHash == a.proofHash
    && e.tool == q.tool && e.resource == q.resource && e.snapshot == snapshot && WordFor(e.checkState, a.verdict)
  }

  lemma WordIsFit(s: Checks.Service, id: nat)
    requires Checks.Inv(s) && id in s.decisions && id in s.checks
    ensures WordFor(StateText(s.checks[id].state), s.decisions[id].decision)
  {
    assert Checks.Filed(s, id);
  }

  lemma RecordedTells(cfg: Config, w: World, q: Question, p: Picture, ctx: Context, id: nat, snapshot: nat)
    requires Checks.Inv(w.checks) && id in w.checks.decisions && id in w.checks.checks
    ensures var (t, a) := Recorded(cfg, w, q, p, ctx, id, snapshot);
      && |t.store.log| > |w.store.log| && t.store.log[..|w.store.log|] == w.store.log && a.decision == w.store.nextId
      && t.store.log[|w.store.log|].session == q.session && Answers(t.store.log[|w.store.log|].event, q, a, snapshot)
  {
    hide FollowUp, StateText, WordFor, Checks.Inv;
    WordIsFit(w.checks, id);
    var d, c, decision := w.checks.decisions[id], w.checks.checks[id], w.store.nextId;
    var e := DecisionRecorded(decision, id, StateText(c.state), d.decision, q.tool, q.resource, snapshot, d.proofHash);
    var recorded := Log(w.store.(nextId := decision + 1), q.session, e);
    GatewaySafety.FollowUpIsQuiet(cfg, w.(store := recorded), q, p, ctx, d);
    var t := FollowUp(cfg, w.(store := recorded), q, p, ctx, d);
    assert t.store.log[..|recorded.log|] == recorded.log;
    assert t.store.log[..|recorded.log|][..|w.store.log|] == t.store.log[..|w.store.log|];
    assert t.store.log[..|recorded.log|][|w.store.log|] == recorded.log[|w.store.log|];
  }

  lemma AskedNames(q: Question, snapshot: nat, key: string)
    ensures Names(Entry(q.session, Requested(q, snapshot, key)), q.session, "authorization_check_requested", Field("snapshot_id", Num(snapshot)))
    ensures Names(Entry(q.session, Requested(q, snapshot, key)), q.session, "authorization_check_requested", Field("idempotency_key", Str(key)))
  {
    var f := Requested(q, snapshot, key).body.fields;
    assert f[2] == Field("snapshot_id", Num(snapshot)) && f[3] == Field("idempotency_key", Str(key));
  }

  ghost predicate TellsAnswer(s: Store, t: Store, q: Question, auth: Option<Auth>) {
    auth.Some? ==> ToldAs(s, t, q, auth.value)
  }

  lemma DecidedTells(cfg: Config, w: World, s: SessionRec, q: Question, p: Picture)
    requires Checks.Inv(w.checks)
    ensures var (t, auth) := Decided(cfg, w, s, q, p); TellsAnswer(w.store, t.store, q, auth)
  {
    hide Recorded, Evaluated, QuestionContext, IdempotencyKey, Checks.Inv, Requested, Names, Answers;
    var ctx := QuestionContext(cfg, w, s, q, p);
    var key := IdempotencyKey(cfg.sha, ctx);
    AskedNames(q, w.store.nextId, key);
    var asked := Log(w.store.(nextId := w.store.nextId + 1), q.session, Requested(q, w.store.nextId, key));
    GatewaySafety.EvaluatedInOrder(cfg, w.checks, q, ctx);
    var (checks, id) := Evaluated(cfg, w.checks, q, ctx);
    var w1 := w.(store := asked, checks := checks);
    if id in checks.decisions && id in checks.checks {
      RecordedTells(cfg, w1, q, p, ctx, id, w.store.nextId);
      var (t, a) := Recorded(cfg, w1, q, p, ctx, id, w.store.nextId);
      assert t.store.log[..|asked.log|][..|w.store.log|] == t.store.log[..|w.store.log|];
      assert t.store.log[..|asked.log|][|w.store.log|] == asked.log[|w.store.log|];
    }
  }

  /**
   * Every answer is on record right after its question, with the same snapshot, with the id, the check and the proof that
   * the caller gets, and with the word for the state that its decision calls for.
   */
  lemma AnswerIsTold(cfg: Config, w: World, q: Question)
    requires Checks.Inv(w.checks)
    ensures var (t, auth) := RunAuthorize(cfg, w, q); TellsAnswer(w.store, t.store, q, auth)
  {
    hide Decided, Look, SaveHits, HitsFor, Checks.Inv, TellsAnswer;
    var s := FindSession(cfg.catalog, q.session);
    if s.Some? && q.agentActive && s.value.agent == q.agent {
      var ready := Prepared(cfg, w, s.value);
      var look := Look(ready.graph, q.session, q.tool, q.resource, ready.store.now, cfg.parse);
      if look.Ok? {
        DecidedTells(cfg, ready, s.value, q, look.value);
      } else {
        NoAnswerNothingTold(w.store, ready.store, q);
      }
    } else {
      NoAnswerNothingTold(w.store, w.store, q);
    }
  }

  lemma NoAnswerNothingTold(s: Store, t: Store, q: Question)
    ensures TellsAnswer(s, t, q, None)
  {
  }

  // ---- Notes ----

  /** Feedback and a request for repair are logged under the session, and change nothing else. */
  lemma NoteIsLogged(cfg: Config, w: World, session: string, note: Note)
    ensures var t := Apply(cfg, w, NoteStep(session, note));
      t == w.(store := w.store.(log := t.store.log)) && NotedAs(w.store.log, t.store.log, session, note)
  {
    hide RunPreflight, RunAuthorize, BeginCall, ConsumeForCall, ExecuteForCall, Approve, Strings;
    NoteNames(session, note);
    hide NoteEvent, Names;
  }

  predicate NotedAs(before: seq<Entry>, after: seq<Entry>, session: string, note: Note) {
    && |after| == |before| + 1 && after[..|before|] == before
    && match note
       case Feedback(decision, outcome, text, agent) =>
         && Names(after[|before|], session, "workflow_feedback_submitted", Field("decision_id", Str(decision)))
         && Names(after[|before|], session, "workflow_feedback_submitted", Field("outcome", Str(outcome)))
       case RepairNeeded(tool, missing) =>
         && Names(after[|before|], session, "tool_call_repair_requested", Field("tool_id", Str(tool)))
         && Names(after[|before|], session, "tool_call_repair_requested", Field("missing_arguments", Strings(missing)))
  }

  lemma NoteNames(session: string, note: Note)
    ensures NotedAs([], [Entry(session, NoteEvent(note))], session, note)
  {
    hide Strings;
    var f := NoteEvent(note).body.fields;
    match note
    case Feedback(decision, outcome, _, _) =>
      assert f[0] == Field("decision_id", Str(decision)) && f[1] == Field("outcome", Str(outcome));
    case RepairNeeded(tool, missing) =>
      assert f[0] == Field("tool_id", Str(tool)) && f[1] == Field("missing_arguments", Strings(missing));
  }

  // ---- The snapshot of a question ----

  /** A recipe that the session's search finds. */
  ghost predicate FindsRecipe(c: Catalog, s: SessionRec) {
    exists x :: x in c.recipes && GraphLook.Found(x, s.team, s.goalClass, s.goal)
  }

  lemma HitsIff(c: Catalog, s: SessionRec)
    ensures SessionHits(c, s) != [] <==> FindsRecipe(c, s)
  {
    hide RankedHits, GraphLook.Found, HitScore;
    var all := RankedHits(c.recipes, s.team, s.goalClass, s.goal);
    GraphLook.SessionHitsAreBest(c, s);
    if all != [] {
      assert all[0] in all;
      GraphLook.HitsExactly(c.recipes, s.team, s.goalClass, s.goal, all[0]);
    }
    if FindsRecipe(c, s) {
      var x :| x in c.recipes && GraphLook.Found(x, s.team, s.goalClass, s.goal);
      var h := Hit(x.recipe, HitScore(x, s.goalClass, s.goal));
      assert GraphLook.CountsAs(x, s.team, s.goalClass, s.goal, h);
      GraphLook.HitsExactly(c.recipes, s.team, s.goalClass, s.goal, h);
    }
  }

  /** A question is asked on the main commit exactly when the search finds a recipe, and carries the id of its snapshot. */
  lemma SnapshotNamesCommit(cfg: Config, w: World, s: SessionRec, q: Question, p: Picture)
    ensures var ctx := QuestionContext(cfg, w, s, q, p);
      && ctx.doltCommit == ctx.recipeIndexCommit == (if FindsRecipe(w.graph.catalog, s) then "main" else "demo-fixture")
      && ctx.snapshotId == Decimal(w.store.nextId) && ctx.sessionId == q.session && ctx.toolId == q.tool && ctx.resourceId == q.resource
  {
    hide GatewayFacts, PathOf, FactsOf, FindBinding, SessionHits, FindsRecipe;
    HitsIff(w.graph.catalog, s);
  }
}
