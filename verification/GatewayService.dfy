/** The gateway as an object over its store and its check service (platform/gateway_service.py, platform/mcp/handlers.py). */
module GatewayService {
  import opened Wrappers
  import opened Json
  import opened Redaction
  import opened PolicyTable
  import opened PolicyCompile
  import opened PolicyDecide
  import opened GrantLifecycle
  import opened GraphFallback
  import opened GatewayContext
  import opened Ledger
  import opened Gateway
  import opened GatewaySteps
  import LedgerEvents
  import LedgerInvariant
  import GatewaySafety
  import DoltStore
  import Checks = AuthorizationChecks
  import Broker = CredentialBroker

  class GatewayService {
    const cfg: Config
    const store: DoltStore.DoltStore
    const checks: Checks.AuthorizationCheckService
    var similarity: seq<SimilarityRec>
    var graph: GraphData
    ghost var calls: map<nat, Call>

    ghost function State(): World
      reads this, store, checks
    {
      World(store.State(), checks.State(), similarity, graph, calls)
    }

    ghost predicate Valid()
      reads this, store, checks
    {
      store.Valid() && Checks.Inv(checks.State()) && store.sha == cfg.sha && store.toolScopes == cfg.catalog.toolScopes
    }

    constructor (cfg: Config, store: DoltStore.DoltStore, checks: Checks.AuthorizationCheckService)
      requires store.Valid() && Checks.Inv(checks.State()) && store.sha == cfg.sha && store.toolScopes == cfg.catalog.toolScopes
      ensures Valid() && this.cfg == cfg && this.store == store && this.checks == checks && calls == map[] && similarity == []
    {
      this.cfg, this.store, this.checks, similarity, calls := cfg, store, checks, [], map[];
      graph := GraphData(cfg.catalog, [], []);
    }

    /** `sync_graph` with the in-memory backend */
    method SyncGraph()
      requires Valid()
      modifies this`graph
      ensures Valid() && State() == Sync(cfg, old(State()))
    {
      var grants := store.FetchGrants();
      graph := GraphData(cfg.catalog, grants, similarity);
    }

    /** `save_recipe_hits` */
    method SaveRecipeHits(session: string, hits: seq<Hit>)
      requires Valid()
      modifies this`similarity
      ensures Valid() && State() == old(State()).(similarity := SaveHits(old(similarity), session, hits))
    {
      for rank := 0 to |hits|
        invariant similarity == SaveHits(old(similarity), session, hits[..rank])
      {
        assert hits[..rank + 1][..rank] == hits[..rank];
        similarity := Upsert(similarity, SimilarityRec(session, hits[rank].recipe, hits[rank].score, rank + 1, true));
      }
      assert hits[..|hits|] == hits;
    }

    /** Sync, search, save, sync. */
    method Prepare(s: SessionRec)
      requires Valid()
      modifies this`graph, this`similarity
      ensures Valid() && State() == Prepared(cfg, old(State()), s)
    {
      SyncGraph();
      var hits := SearchRecipes(graph.catalog.recipes, s.team, s.goalClass, s.goal, 3);
      SaveRecipeHits(s.session, hits);
      SyncGraph();
    }

    /** The grant or the request that follows a decision. */
    method Follow(q: Question, p: Picture, ctx: Context, d: PolicyDecision, tie: nat)
      requires Valid()
      modifies this`graph, store
      ensures Valid() && State() == FollowUp(cfg, old(State()), q, p, ctx, d)
    {
      hide Checks.Inv, LedgerInvariant.Inv, IssueEphemeralGrant, CreateRequest, RequestFor, ActiveGrants;
      if d.decision == AutoApprove {
        var _ := store.IssueGrant(q.session, if d.requiredScope != "" then d.requiredScope else p.ts.scope, q.resource, d.proofHash, d.reason);
        SyncGraph();
      } else if d.decision == EscalateHuman {
        var _ := store.CreateAccessRequest(RequestFor(p, q, ctx, d));
      } else if d.decision == Allow {
        var _ := store.FindActiveGrantForTool(q.session, q.tool, q.resource, tie);
      }
    }

    /** The check of a question; `None` when it ends without a policy decision. */
    method EvaluateQuestion(q: Question, ctx: Context, ghost before: World) returns (id: Option<nat>)
      requires Valid() && before == State()
      modifies checks
      ensures Valid() && EvaluatedAs(cfg, before, q, ctx, State(), id)
    {
      hide Decide, IdempotencyKey, Checks.Inv, Checks.Evolves, Checks.EvaluateCheck, LedgerInvariant.Inv;
      var decided := if q.engineUp then Decide(cfg.sha, cfg.thresholds, ctx) else Err("policy engine unavailable");
      var check := checks.Evaluate(q.session, q.tool, q.resource, IdempotencyKey(cfg.sha, ctx), 900, decided);
      if check.Err? || check.value.id !in checks.decisions {
        return None;
      }
      id := Some(check.value.id);
    }

    /** The decision record, under a fresh id. */
    method LogDecision(q: Question, id: nat, snapshot: nat) returns (decision: nat)
      requires Valid() && id in checks.decisions && id in checks.checks
      modifies store
      ensures Valid() && decision == old(store.nextId)
      ensures var d, c := checks.decisions[id], checks.checks[id];
        State() == old(State()).(store := Log(old(store.State()).(nextId := decision + 1), q.session,
          DecisionRecorded(decision, id, StateText(c.state), d.decision, q.tool, q.resource, snapshot, d.proofHash)))
    {
      hide Checks.Inv, LedgerInvariant.Inv, StateText;
      var d, check := checks.decisions[id], checks.checks[id];
      decision := store.TakeId();
      store.AppendSessionEvent(q.session,
        DecisionRecorded(decision, id, StateText(check.state), d.decision, q.tool, q.resource, snapshot, d.proofHash));
    }

    /** The decision record, and what follows the decision. */
    method Record(q: Question, p: Picture, ctx: Context, id: nat, snapshot: nat, tie: nat) returns (auth: Auth)
      requires Valid() && id in checks.decisions && id in checks.checks
      modifies this`graph, store
      ensures Valid() && (State(), auth) == Recorded(cfg, old(State()), q, p, ctx, id, snapshot)
    {
      hide FollowUp, Log, Checks.Inv, LedgerInvariant.Inv, StateText;
      var d, check := checks.decisions[id], checks.checks[id];
      var decision := LogDecision(q, id, snapshot);
      Follow(q, p, ctx, d, tie);
      auth := Auth(decision, id, check.state, d.decision, d.proofHash);
    }

    /** The snapshot, the event and the check of a question. */
    method OpenCheck(s: SessionRec, q: Question, p: Picture, ghost before: World) returns (ctx: Context, snapshot: nat, id: Option<nat>)
      requires Valid() && before == State()
      modifies store, checks
      ensures Valid() && OpenedAs(cfg, before, s, q, p, State(), ctx, snapshot, id)
    {
      hide Evaluated, QuestionContext, GatewayCtx, IdempotencyKey, HitsFor, Checks.Inv, LedgerInvariant.Inv, FindBinding, Requested;
      QuestionContextOf(cfg, State(), s, q, p);
      assert Quiets(q) by {
        RequestedIsQuiet(q);
      }
      snapshot := store.TakeId();
      var binding := FindBinding(cfg.bindings, q.tool, p.ts.scope, q.resource);
      ctx := GatewayCtx(p, q.session, q.tool, q.resource, binding, snapshot, CommitOf(HitsFor(graph, s)));
      store.AppendSessionEvent(q.session, Requested(q, snapshot, IdempotencyKey(cfg.sha, ctx)));
      id := EvaluateQuestion(q, ctx, State());
    }

    /** From the picture to the recorded decision and what follows it. */
    method Judge(s: SessionRec, q: Question, p: Picture, tie: nat, ghost before: World) returns (auth: Option<Auth>)
      requires Valid() && before == State()
      modifies this, store, checks
      ensures Valid() && State() == Decided(cfg, before, s, q, p).0 && auth == Decided(cfg, before, s, q, p).1
    {
      hide Recorded, Evaluated, QuestionContext, IdempotencyKey, Checks.Inv, LedgerInvariant.Inv, Requested;
      var ctx, snapshot, id := OpenCheck(s, q, p, before);
      if id.None? {
        return None;
      }
      var recorded := Record(q, p, ctx, id.value, snapshot, tie);
      auth := Some(recorded);
    }

    /** `run_authorize`; `None` stands for an exception. `before` is the world as the call finds it. */
    method Authorize(q: Question, tie: nat, ghost before: World) returns (auth: Option<Auth>)
      requires Valid() && before == State()
      modifies this, store, checks
      ensures Valid() && State() == RunAuthorize(cfg, before, q).0 && auth == RunAuthorize(cfg, before, q).1
    {
      hide Decided, Prepared, Look, Checks.Inv, LedgerInvariant.Inv;
      var s := FindSession(cfg.catalog, q.session);
      if s.None? || !q.agentActive || s.value.agent != q.agent {
        return None;
      }
      Prepare(s.value);
      var look := Look(graph, q.session, q.tool, q.resource, store.now, cfg.parse);
      if look.Err? {
        return None;
      }
      auth := Judge(s.value, q, look.value, tie, State());
    }

    /** `_create_anticipated_requests` */
    method CreateAnticipatedRequests(s: SessionRec, agent: string, snapshot: nat, traces: seq<string>, predictions: seq<Prediction>)
      requires Valid()
      modifies store
      ensures Valid() && State() == old(State()).(store := Anticipate(old(store.State()), s, agent, snapshot, traces, predictions))
    {
      hide Checks.Inv, LedgerInvariant.Inv, CreateRequest, Predicted, AnticipatedArgs;
      for n := 0 to |predictions|
        invariant Valid()
        invariant store.State() == Anticipate(old(store.State()), s, agent, snapshot, traces, predictions[..n])
      {
        assert predictions[..n + 1][..n] == predictions[..n];
        GatewaySafety.PredictedIsQuiet(predictions[n], snapshot);
        store.AppendSessionEvent(s.session, Predicted(predictions[n], snapshot));
        var _ := store.CreateAccessRequest(AnticipatedArgs(s, agent, predictions[n], traces));
      }
      assert predictions[..|predictions|] == predictions;
    }

    /** The preflight up to its completion event. */
    method OpenPreflight(s: SessionRec, agent: string) returns (snapshot: nat, hits: seq<Hit>)
      requires Valid()
      modifies this`graph, this`similarity, store
      ensures Valid() && State() == PreflightOpened(cfg, old(State()), s, agent).0
      ensures snapshot == PreflightOpened(cfg, old(State()), s, agent).1 && hits == PreflightOpened(cfg, old(State()), s, agent).2
    {
      hide Checks.Inv, LedgerInvariant.Inv, HitsFor, PreflightAsked, PreflightDone, SaveHits, ActiveGrants, LedgerEvents.Proper;
      GatewaySafety.PreflightNoticesAreQuiet(agent, store.nextId, []);
      store.AppendSessionEvent(s.session, PreflightAsked(agent));
      SyncGraph();
      hits := HitsFor(graph, s);
      SaveRecipeHits(s.session, hits);
      snapshot := store.TakeId();
      GatewaySafety.PreflightNoticesAreQuiet(agent, snapshot, hits);
      store.AppendSessionEvent(s.session, PreflightDone(snapshot, hits));
    }

    /** `run_preflight` */
    method Preflight(session: string, agent: string, agentActive: bool, predictions: seq<Prediction>)
      requires Valid()
      modifies this`graph, this`similarity, store
      ensures Valid() && State() == RunPreflight(cfg, old(State()), session, agent, agentActive, predictions)
    {
      hide Checks.Inv, LedgerInvariant.Inv, Anticipate, PreflightOpened;
      var s := FindSession(cfg.catalog, session);
      if s.None? || !agentActive || s.value.agent != agent {
        return;
      }
      var snapshot, hits := OpenPreflight(s.value, agent);
      CreateAnticipatedRequests(s.value, agent, snapshot, HitRecipes(hits), predictions);
    }

    /** The two events of a tool call, and the mark on the request that foresaw it. */
    method Announce(q: Question)
      requires Valid()
      modifies store
      ensures Valid() && State() == Announced(old(State()), q)
    {
      hide Checks.Inv, LedgerInvariant.Inv, HookChecked, CallRequested, MarkToolCallSeen;
      GatewaySafety.NoticesAreQuiet(q);
      store.AppendSessionEvent(q.session, HookChecked(q));
      store.AppendSessionEvent(q.session, CallRequested(q));
      var _ := store.MarkSeen(q.session, q.tool, q.resource);
    }

    /** `mint_gateway_credential_lease`, as far as the log shows it */
    method Lease(c: Call, scope: string, o: Outside) returns (used: Option<bool>)
      requires Valid()
      modifies store
      ensures Valid() && used == LeaseUsed(cfg, c, scope, o)
      ensures State() == old(State()).(store := LogAll(old(store.State()), c.session, LeaseTrail(cfg, c, scope, o)))
    {
      hide Checks.Inv, LedgerInvariant.Inv, LeaseUsed, LeaseTrail;
      GatewaySafety.TrailIsQuiet(cfg, c, scope, o);
      var trail := LeaseTrail(cfg, c, scope, o);
      for n := 0 to |trail|
        invariant Valid()
        invariant store.State() == LogAll(old(store.State()), c.session, trail[..n])
      {
        assert trail[..n + 1][..n] == trail[..n];
        assert trail[n] in trail;
        store.AppendSessionEvent(c.session, trail[n]);
      }
      assert trail[..|trail|] == trail;
      used := LeaseUsed(cfg, c, scope, o);
    }

    /** `execute_downstream_tool`; `None` stands for an exception. */
    method Execute(c: Call, payload: Option<Value>) returns (r: Option<Value>)
      requires Valid()
      modifies store
      ensures Valid()
      ensures r.Some? <==> Checks.PassesAssertExecutable(c.auth.verdict, c.auth.state) && payload.Some?
      ensures r.Some? ==> r.value == Scrubbed(payload.value) && NoSecret(r.value)
      ensures State() == old(State()).(store := if r.Some? then LogExecution(old(store.State()), c, payload.value) else old(store.State()))
    {
      hide Checks.Inv, LedgerInvariant.Inv, Scrubbed, Cuts, RenderAll, NoSecret, TextAt;
      if !Checks.PassesAssertExecutable(c.auth.verdict, c.auth.state) || payload.None? {
        return None;
      }
      var redacted, fields := RedactPayload(payload.value, "");
      ScrubbedHasNoSecret(payload.value);
      if UntrustedRedacted(payload.value) {
        fields := fields + ["prompt_injection"];
      }
      assert fields == RedactedFields(payload.value);
      store.AppendSessionEvent(c.session, Executed(c, payload.value));
      if fields != [] {
        store.AppendSessionEvent(c.session, OutputRedacted(c, fields));
      }
      r := Some(redacted);
    }

    /** The consumption of a call; `None` when no live grant was found. */
    method ConsumeGrant(d: nat, c: Call, tie: nat) returns (grant: Option<Grant>)
      requires Valid() && d in calls && calls[d] == c && c.grant.None?
      modifies this`calls, store
      ensures grant.Some? <==> d in calls
      ensures grant.Some? ==> calls[d] == c.(grant := Some(grant.value.id))
      ensures Valid() && State() == ConsumeForCall(cfg, old(State()), d, tie)
    {
      hide Checks.Inv, LedgerInvariant.Inv, Newest, Consumable;
      grant := store.ConsumeGrantForTool(c.session, c.tool, c.resource, d, tie);
      if grant.None? {
        calls := calls - {d};
      } else {
        calls := calls[d := c.(grant := Some(grant.value.id))];
      }
    }

    /** The lease and the execution of a call; either way the call is over, and its caller is shown what was executed. */
    method FinishCall(d: nat, c: Call, o: Outside) returns (r: Option<Value>)
      requires Valid() && d in calls && calls[d] == c && c.grant.Some?
      modifies this`calls, store
      ensures ShowsScrubbed(r, o) && (r.Some? <==> Ran(old(store.State()), store.State())) && old(store.State()).log <= store.State().log
      ensures Valid() && State() == ExecuteForCall(cfg, old(State()), d, o)
    {
      hide Checks.Inv, LedgerInvariant.Inv, LeaseTrail, LeaseUsed, LogAll, LogExecution, NoSecret, Scrubbed, GrantScope, Ran,
           Checks.PassesAssertExecutable;
      LeasingRunsNothing(cfg, store.State(), c, GrantScope(store.grants, c.grant.value), o);
      var used := Lease(c, GrantScope(store.grants, c.grant.value), o);
      calls := calls - {d};
      if used == Some(false) {
        return None;
      }
      ghost var leased := store.State();
      r := Execute(c, o.payload);
      if r.Some? {
        ExecutingRuns(leased, c, o.payload.value);
        RanLater(old(store.State()), leased, store.State());
      }
    }

    /** The call up to its decision: announced, authorized, and then admitted or denied. */
    method BeginCall(q: Question, tie: nat, ghost before: World) returns (auth: Option<Auth>)
      requires Valid() && before == State()
      modifies this, store, checks
      ensures Valid() && State() == Gateway.BeginCall(cfg, before, q).0 && auth == Gateway.BeginCall(cfg, before, q).1
    {
      hide Checks.Inv, LedgerInvariant.Inv, Announced, RunAuthorize, DenialReturned;
      Announce(q);
      auth := Authorize(q, tie, State());
      if auth.None? {
        return;
      }
      var a := auth.value;
      if Executable(a.verdict) {
        calls := calls[a.decision := Call(q.session, q.tool, q.resource, a, None)];
      } else {
        GatewaySafety.DenialIsQuiet(q, a);
        store.AppendSessionEvent(q.session, DenialReturned(q, a));
      }
    }

    /** `handle_tool_call` for a downstream tool; `None` stands for a denial or an exception. */
    method HandleToolCall(q: Question, tie: nat, o: Outside, ghost before: World) returns (r: Option<Value>)
      requires Valid() && before == State()
      modifies this, store, checks
      ensures Valid() && HandledAs(cfg, before, q, tie, o, State(), r)
    {
      hide Checks.Inv, LedgerInvariant.Inv, Gateway.BeginCall, ConsumeForCall, ExecuteForCall, NoSecret, Scrubbed, OnlyTold, Ran;
      BeginningRunsNothing(cfg, before, q);
      var auth := BeginCall(q, tie, before);
      if auth.None? || !Executable(auth.value.verdict) {
        NothingRan(before.store, store.State());
        return None;
      }
      var a := auth.value;
      var c := Call(q.session, q.tool, q.resource, a, None);
      CallBegins(cfg, before, q);
      ghost var begun := State();
      ConsumingRunsNothing(cfg, begun, a.decision, tie);
      var grant := ConsumeGrant(a.decision, c, tie);
      TellingOn(before.store, begun.store, store.State());
      if grant.None? {
        NothingToExecute(cfg, State(), a.decision, o);
        NothingRan(before.store, store.State());
        return None;
      }
      ghost var consumed := store.State();
      r := FinishCall(a.decision, c.(grant := Some(grant.value.id)), o);
      RanLater(before.store, consumed, store.State());
    }

    /** `approve_access_request`, with the sync that follows an approval */
    method ApproveAccessRequest(request: nat, approver: string) returns (r: Result<bool>)
      requires Valid()
      modifies this`graph, store
      ensures Valid() && State() == Approve(cfg, old(State()), request, approver)
      ensures r.Ok? <==> exists k :: 0 <= k < |old(store.requests)| && old(store.requests)[k].id == request
      ensures r.Ok? ==> (r.value <==> store.State() != old(store.State()))
    {
      hide Checks.Inv, LedgerInvariant.Inv, ApproveRequest;
      ApprovalKnows(store.State(), request, approver);
      r := store.ApproveAccessRequest(request, approver);
      if r.Ok? && r.value {
        SyncGraph();
      }
    }
  }

  /** What a caller gets to see is the payload, redacted, and holds no secret. */
  predicate ShowsScrubbed(r: Option<Value>, o: Outside) {
    r.Some? ==> o.payload.Some? && r.value == Scrubbed(o.payload.value) && NoSecret(r.value)
  }

  lemma NothingRan(before: Store, after: Store)
    requires OnlyTold(before, after)
    ensures !Ran(before, after)
  {
  }

  lemma TellingOn(a: Store, b: Store, c: Store)
    requires OnlyTold(a, b) && OnlyTold(b, c)
    ensures OnlyTold(a, c)
  {
    RanLater(a, b, c);
  }

  lemma ApprovalKnows(s: Store, request: nat, approver: string)
    ensures ApproveRequest(s, request, approver).Ok? <==> exists k :: 0 <= k < |s.requests| && s.requests[k].id == request
  {
  }

  /** The world after a tool call, and what its caller is shown: something exactly when the call was executed. */
  ghost predicate HandledAs(cfg: Config, before: World, q: Question, tie: nat, o: Outside, after: World, r: Option<Value>) {
    hide Gateway.HandleToolCall;
    && after == Gateway.HandleToolCall(cfg, before, q, tie, o)
    && ShowsScrubbed(r, o) && (r.Some? <==> Ran(before.store, after.store))
  }

  /** The world after an evaluation, and the check if it now has a decision. */
  ghost predicate EvaluatedAs(cfg: Config, before: World, q: Question, ctx: Context, after: World, id: Option<nat>) {
    hide Evaluated;
    var (checks, i) := Evaluated(cfg, before.checks, q, ctx);
    after == before.(checks := checks) && id == if i in checks.decisions && i in checks.checks then Some(i) else None
  }

  /** The world after a question got its snapshot, its event and its check. */
  ghost predicate OpenedAs(
    cfg: Config, before: World, s: SessionRec, q: Question, p: Picture, after: World, ctx: Context, snapshot: nat, id: Option<nat>)
  {
    hide QuestionContext, IdempotencyKey, EvaluatedAs;
    && ctx == QuestionContext(cfg, before, s, q, p) && snapshot == before.store.nextId
    && var asked := Log(before.store.(nextId := snapshot + 1), q.session, Requested(q, snapshot, IdempotencyKey(cfg.sha, ctx)));
       EvaluatedAs(cfg, before.(store := asked), q, ctx, after, id)
  }

  lemma QuestionContextOf(cfg: Config, w: World, s: SessionRec, q: Question, p: Picture)
    ensures QuestionContext(cfg, w, s, q, p)
         == GatewayCtx(p, q.session, q.tool, q.resource, FindBinding(cfg.bindings, q.tool, p.ts.scope, q.resource), w.store.nextId,
                       CommitOf(HitsFor(w.graph, s)))
  {
  }

  ghost predicate Quiets(q: Question) {
    forall snapshot, key :: LedgerInvariant.Plain(Requested(q, snapshot, key))
  }

  lemma RequestedIsQuiet(q: Question)
    ensures Quiets(q)
  {
  }

  lemma NothingToExecute(cfg: Config, w: World, d: nat, o: Outside)
    requires d !in w.calls
    ensures ExecuteForCall(cfg, w, d, o) == w
  {
  }

  /** The steps of one call. */
  function StepsOf(q: Question, auth: Option<Auth>, tie: nat, o: Outside): seq<Step> {
    if auth.None? || !Executable(auth.value.verdict) then [BeginStep(q)]
    else [BeginStep(q), ConsumeStep(auth.value.decision, tie), ExecuteStep(auth.value.decision, o)]
  }

  lemma OneStep(cfg: Config, w: World, q: Question)
    ensures Run(cfg, w, [BeginStep(q)]) == BeginCall(cfg, w, q).0
  {
    hide BeginCall, RunPreflight, RunAuthorize, ConsumeForCall, ExecuteForCall, Approve;
    assert [BeginStep(q)][..0] == [];
    assert Run(cfg, w, []) == w;
  }

  lemma ThreeSteps(cfg: Config, w: World, q: Question, d: nat, tie: nat, o: Outside)
    ensures Run(cfg, w, [BeginStep(q), ConsumeStep(d, tie), ExecuteStep(d, o)])
         == ExecuteForCall(cfg, ConsumeForCall(cfg, BeginCall(cfg, w, q).0, d, tie), d, o)
  {
    hide BeginCall, ConsumeForCall, ExecuteForCall, RunPreflight, RunAuthorize, Approve;
    var steps := [BeginStep(q), ConsumeStep(d, tie), ExecuteStep(d, o)];
    assert steps[..2][..1] == [BeginStep(q)];
    OneStep(cfg, w, q);
    assert Run(cfg, w, steps[..2]) == Apply(cfg, Run(cfg, w, [BeginStep(q)]), steps[1]);
  }

  /** A tool call handled alone is one of the interleaved runs, so every safety result about runs is about it. */
  lemma HandlingIsARun(cfg: Config, w: World, q: Question, tie: nat, o: Outside)
    ensures Gateway.HandleToolCall(cfg, w, q, tie, o) == Run(cfg, w, StepsOf(q, BeginCall(cfg, w, q).1, tie, o))
  {
    hide BeginCall, ConsumeForCall, ExecuteForCall, Run;
    var auth := BeginCall(cfg, w, q).1;
    OneStep(cfg, w, q);
    if auth.Some? {
      ThreeSteps(cfg, w, q, auth.value.decision, tie, o);
    }
  }
}
