/**
 * The gateway (platform/gateway_service.py, platform/mcp/handlers.py) as steps on one world: the store, the
 * authorization checks, the cached graph, and the tool calls that are under way.
 */
module Gateway {
  import opened Wrappers
  import opened Json
  import opened PyText
  import opened Redaction
  import opened PolicyTable
  import opened PolicyRows
  import opened PolicyCompile
  import opened PolicyDecide
  import opened GrantLifecycle
  import opened GraphFallback
  import opened GatewayContext
  import opened Ledger
  import Checks = AuthorizationChecks
  import Broker = CredentialBroker

  /** What does not change while the gateway runs. */
  datatype Config = Config(sha: Value -> string, thresholds: Thresholds, catalog: Catalog, bindings: seq<BindingRec>, parse: Parsers)

  /** The answer of `run_authorize`. */
  datatype Auth = Auth(decision: nat, check: nat, state: Checks.CheckState, verdict: Decision, proofHash: string)

  /** A tool call between its authorization and its end; `grant` is set once it has consumed one. */
  datatype Call = Call(session: string, tool: string, resource: string, auth: Auth, grant: Option<nat>)

  /** Calls under way are keyed by their decision id. */
  datatype World = World(store: Store, checks: Checks.Service, similarity: seq<SimilarityRec>, graph: GraphData, calls: map<nat, Call>)

  /** A question of an agent; `agentActive` is what the identity plane answers, `engineUp` whether the engine can run. */
  datatype Question = Question(session: string, agent: string, tool: string, resource: string, agentActive: bool, engineUp: bool)

  // ---- Small helpers ----

  /** `sync_graph` with the in-memory backend. */
  function Sync(cfg: Config, w: World): World {
    w.(graph := GraphData(cfg.catalog, ActiveGrants(w.store.grants, w.store.now), w.similarity))
  }

  /** The hits of a session; they are read from the cached graph. */
  function HitsFor(graph: GraphData, s: SessionRec): seq<Hit> {
    SessionHits(graph.catalog, s)
  }

  /** `_commit_from_hits` and `_recipe_index_commit_from_hits` on the hits of the in-memory graph. */
  function CommitOf(hits: seq<Hit>): string {
    if hits != [] then "main" else "demo-fixture"
  }

  /** `_recipe_id_from_ctx` */
  function RecipeFromPath(path: seq<string>): Option<string> {
    if |path| > 1 && "recipe_" <= path[1] then Some(path[1]) else None
  }

  function StateText(state: Checks.CheckState): string {
    match state
    case Created => "created"
    case FactsCompiled => "facts_compiled"
    case PolicyEvaluating => "policy_evaluating"
    case Pending => "pending"
    case WaitingForHuman => "waiting_for_human"
    case Approved => "approved"
    case AutoApproved => "auto_approved"
    case Denied => "denied"
    case Repairable => "repairable"
    case Expired => "expired"
    case Cancelled => "cancelled"
  }

  // ---- run_authorize ----

  /** Up to the second `sync_graph`: the graph then shows the store as it is, with the session's fresh hits. */
  function Prepared(cfg: Config, w: World, s: SessionRec): World {
    var synced := Sync(cfg, w);
    Sync(cfg, synced.(similarity := SaveHits(synced.similarity, s.session, HitsFor(synced.graph, s))))
  }

  /** The context that a prepared world hands to the policy; the snapshot takes the next fresh id. */
  function QuestionContext(cfg: Config, w: World, s: SessionRec, q: Question, p: Picture): Context {
    GatewayCtx(p, q.session, q.tool, q.resource, FindBinding(cfg.bindings, q.tool, p.ts.scope, q.resource), w.store.nextId,
               CommitOf(HitsFor(w.graph, s)))
  }

  function Requested(q: Question, snapshot: nat, key: string): Event {
    Other("authorization_check_requested",
          Obj([Field("tool_id", Str(q.tool)), Field("resource_id", Str(q.resource)), Field("snapshot_id", Num(snapshot)),
               Field("idempotency_key", Str(key))]))
  }

  /** The check after `evaluate`, and its stored decision. */
  function Evaluated(cfg: Config, checks: Checks.Service, q: Question, ctx: Context): (r: (Checks.Service, nat)) {
    var decided := if q.engineUp then Decide(cfg.sha, cfg.thresholds, ctx) else Err("policy engine unavailable");
    Checks.EvaluateCheck(checks, q.session, q.tool, q.resource, IdempotencyKey(cfg.sha, ctx), 900, decided)
  }

  function RequestFor(p: Picture, q: Question, ctx: Context, d: PolicyDecision): RequestArgs {
    RequestArgs(
      session := q.session, user := p.s.user, agent := if p.s.agent != "" then p.s.agent else q.agent,
      scope := if d.requiredScope != "" then d.requiredScope else p.ts.scope, resource := q.resource, tool := q.tool,
      reason := d.reason, recipe := RecipeFromPath(ctx.contextPath), proofId := d.proofHash, origin := "tool_call_escalation",
      predictionId := None, confidence := None, traces := [], phase := "authorize", early := false)
  }

  /** What follows a decision: a grant, a request, or nothing. */
  function FollowUp(cfg: Config, w: World, q: Question, p: Picture, ctx: Context, d: PolicyDecision): World {
    match d.decision
    case AutoApprove =>
      Sync(cfg, w.(store := IssueEphemeralGrant(
        w.store, q.session, if d.requiredScope != "" then d.requiredScope else p.ts.scope, q.resource, d.proofHash, d.reason)))
    case EscalateHuman => w.(store := CreateRequest(w.store, RequestFor(p, q, ctx, d)))
    case _ => w
  }

  /** The record of a decided check under the next fresh id, and what follows the decision. */
  function Recorded(cfg: Config, w: World, q: Question, p: Picture, ctx: Context, id: nat, snapshot: nat): (r: (World, Auth))
    requires id in w.checks.decisions && id in w.checks.checks
  {
    var d, c, decision := w.checks.decisions[id], w.checks.checks[id], w.store.nextId;
    var recorded := Log(w.store.(nextId := decision + 1), q.session,
      DecisionRecorded(decision, id, StateText(c.state), d.decision, q.tool, q.resource, snapshot, d.proofHash));
    (FollowUp(cfg, w.(store := recorded), q, p, ctx, d), Auth(decision, id, c.state, d.decision, d.proofHash))
  }

  /** From the picture on: snapshot, check, decision record, follow-up. */
  function Decided(cfg: Config, w: World, s: SessionRec, q: Question, p: Picture): (r: (World, Option<Auth>)) {
    hide QuestionContext, IdempotencyKey, Evaluated, Recorded;
    var ctx := QuestionContext(cfg, w, s, q, p);
    var snapshot := w.store.nextId;
    var asked := Log(w.store.(nextId := snapshot + 1), q.session, Requested(q, snapshot, IdempotencyKey(cfg.sha, ctx)));
    var (checks, id) := Evaluated(cfg, w.checks, q, ctx);
    var w1 := w.(store := asked, checks := checks);
    if id !in checks.decisions || id !in checks.checks then (w1, None)
    else var (w2, auth) := Recorded(cfg, w1, q, p, ctx, id, snapshot); (w2, Some(auth))
  }

  /** `run_authorize`; without an answer it raised, and what it had written stays written. */
  function RunAuthorize(cfg: Config, w: World, q: Question): (r: (World, Option<Auth>)) {
    hide Prepared, Look, Decided;
    var s := FindSession(cfg.catalog, q.session);
    if s.None? || !q.agentActive || s.value.agent != q.agent then (w, None)
    else
      var ready := Prepared(cfg, w, s.value);
      match Look(ready.graph, q.session, q.tool, q.resource, ready.store.now, cfg.parse)
      case Err(_) => (ready, None)
      case Ok(p) => Decided(cfg, ready, s.value, q, p)
  }

  /** The question is answered with this decision. */
  predicate AnswersWith(cfg: Config, w: World, q: Question, d: Decision) {
    hide RunAuthorize;
    var auth := RunAuthorize(cfg, w, q).1;
    auth.Some? && auth.value.verdict == d
  }

  /** The question is answered with an executable decision. */
  predicate AnswersExecutably(cfg: Config, w: World, q: Question) {
    hide RunAuthorize;
    var auth := RunAuthorize(cfg, w, q).1;
    auth.Some? && Executable(auth.value.verdict)
  }

  // ---- run_preflight ----

  /** A human-required scope that the recipe memory predicts for the session. */
  datatype Prediction = Prediction(id: string, recipe: string, tool: string, scope: string, resource: string, confidence: int, proofId: string)

  function Predicted(p: Prediction, snapshot: nat): Event {
    Other("scope_predicted",
          Obj([Field("prediction_id", Str(p.id)), Field("recipe_id", Str(p.recipe)), Field("tool_id", Str(p.tool)), Field("scope", Str(p.scope)),
               Field("resource_id", Str(p.resource)), Field("approval_mode", Str("human_required")), Field("confidence", Num(p.confidence)),
               Field("snapshot_id", Num(snapshot))]))
  }

  function AnticipatedArgs(s: SessionRec, agent: string, p: Prediction, traces: seq<string>): RequestArgs {
    RequestArgs(
      session := s.session, user := s.user, agent := agent, scope := p.scope, resource := p.resource, tool := p.tool,
      reason := "Preflight predicted this human-required scope from governed recipe memory (" + p.recipe + ").",
      recipe := Some(p.recipe), proofId := p.proofId, origin := PREFLIGHT_ORIGIN, predictionId := Some(p.id),
      confidence := Some(p.confidence), traces := traces, phase := "preflight", early := true)
  }

  /** `_create_anticipated_requests`: one request for each prediction. */
  function Anticipate(store: Store, s: SessionRec, agent: string, snapshot: nat, traces: seq<string>, predictions: seq<Prediction>): Store {
    if predictions == [] then store
    else
      var n := |predictions| - 1;
      var before := Anticipate(store, s, agent, snapshot, traces, predictions[..n]);
      CreateRequest(Log(before, s.session, Predicted(predictions[n], snapshot)), AnticipatedArgs(s, agent, predictions[n], traces))
  }

  function PreflightAsked(agent: string): Event {
    Other("preflight_requested", Obj([Field("agent_id", Str(agent)), Field("delegation_jwt_verified", Bool(true))]))
  }

  function PreflightDone(snapshot: nat, hits: seq<Hit>): Event {
    Other("preflight_completed",
          Obj([Field("snapshot_id", Num(snapshot)),
               Field("recipe_hits", Arr(seq(|hits|, k requires 0 <= k < |hits| => Str(hits[k].recipe))))]))
  }

  function HitRecipes(hits: seq<Hit>): seq<string> {
    seq(|hits|, k requires 0 <= k < |hits| => hits[k].recipe)
  }

  /** The preflight up to its completion event: the world, the snapshot id and the hits. */
  function PreflightOpened(cfg: Config, w: World, s: SessionRec, agent: string): (r: (World, nat, seq<Hit>)) {
    hide HitsFor, PreflightAsked, PreflightDone, SaveHits;
    var asked := Sync(cfg, w.(store := Log(w.store, s.session, PreflightAsked(agent))));
    var hits := HitsFor(asked.graph, s);
    var snapshot := asked.store.nextId;
    (asked.(similarity := SaveHits(asked.similarity, s.session, hits),
            store := Log(asked.store.(nextId := snapshot + 1), s.session, PreflightDone(snapshot, hits))), snapshot, hits)
  }

  /** `run_preflight`; which predictions the recipe memory makes is given. */
  function RunPreflight(cfg: Config, w: World, session: string, agent: string, agentActive: bool, predictions: seq<Prediction>): World {
    hide PreflightOpened, Anticipate;
    var s := FindSession(cfg.catalog, session);
    if s.None? || !agentActive || s.value.agent != agent then w
    else
      var (started, snapshot, hits) := PreflightOpened(cfg, w, s.value, agent);
      started.(store := Anticipate(started.store, s.value, agent, snapshot, HitRecipes(hits), predictions))
  }

  // ---- handle_tool_call ----

  function HookChecked(q: Question): Event {
    Other("hook_pre_tool_use_checked",
          Obj([Field("agent_host", Str("codex")), Field("tool_id", Str(q.tool)), Field("resource_id", Str(q.resource)),
               Field("route", Str("scope_memory_gateway")), Field("secret_access_pattern", Str("none")),
               Field("permission_decision", Str("allow")), Field("secret_exposed_to_agent", Bool(false))]))
  }

  function CallRequested(q: Question): Event {
    Other("tool_call_requested", Obj([Field("tool_id", Str(q.tool)), Field("resource_id", Str(q.resource))]))
  }

  function ErrorFor(d: Decision): string {
    match d
    case EscalateHuman => "scope_required"
    case Repair => "repair_required"
    case _ => "policy_denied"
  }

  function DenialReturned(q: Question, auth: Auth): Event {
    Other("denial_returned",
          Obj([Field("tool_id", Str(q.tool)), Field("resource_id", Str(q.resource)), Field("decision_id", Num(auth.decision)),
               Field("check_id", Num(auth.check)), Field("decision", Str(DecisionText(auth.verdict))), Field("error", Str(ErrorFor(auth.verdict)))]))
  }

  /** A tool call is logged before anything is decided, and marks the request that foresaw it. */
  function Announced(w: World, q: Question): World {
    w.(store := MarkToolCallSeen(Log(Log(w.store, q.session, HookChecked(q)), q.session, CallRequested(q)), q.session, q.tool, q.resource))
  }

  /** The call up to its decision: the announcement, the authorization, and a denial if denied. */
  function BeginCall(cfg: Config, w: World, q: Question): (r: (World, Option<Auth>)) {
    hide RunAuthorize, Announced;
    var (w1, auth) := RunAuthorize(cfg, Announced(w, q), q);
    if auth.None? then (w1, None)
    else if Executable(auth.value.verdict) then
      (w1.(calls := w1.calls[auth.value.decision := Call(q.session, q.tool, q.resource, auth.value, None)]), auth)
    else (w1.(store := Log(w1.store, q.session, DenialReturned(q, auth.value))), auth)
  }

  /** `consume_grant_for_tool`; without a live grant the call is over. */
  function ConsumeForCall(cfg: Config, w: World, d: nat, tie: nat): World {
    if d !in w.calls || w.calls[d].grant.Some? then w
    else
      var c := w.calls[d];
      var (store, i) := Consume(w.store, cfg.catalog.toolScopes, c.session, c.tool, c.resource, d, tie);
      if i.None? then w.(calls := w.calls - {d})
      else w.(store := store, calls := w.calls[d := c.(grant := Some(store.grants[i.value].id))])
  }

  /** What the world outside answers while a call runs: the provider, the secret, and the downstream payload. */
  datatype Outside = Outside(readiness: Broker.Readiness, resolves: bool, payload: Option<Value>)

  /** The scope of the consumed grant, for the lease. */
  function GrantScope(grants: seq<Grant>, id: nat): (r: string)
    ensures (exists g :: g in grants && g.id == id) ==> exists g :: g in grants && g.id == id && g.scope == r
  {
    var g := LastWhere(grants, (x: Grant) => x.id == id);
    if g.Some? then g.value.scope else ""
  }

  function LeaseRequest(c: Call, scope: string, b: BindingRec): Broker.MintRequest {
    Broker.MintRequest(c.session, c.tool, scope, c.resource,
                       Broker.Binding(b.credentialRef, b.provider, b.credentialClass, b.ownerTeam, b.injectionMode), 900, 1, false)
  }

  /** `mint_gateway_credential_lease`: `None` when no credential is bound, else whether the lease was used. */
  function LeaseUsed(cfg: Config, c: Call, scope: string, o: Outside): Option<bool> {
    match FindBinding(cfg.bindings, c.tool, scope, c.resource)
    case None => None
    case Some(b) => Some(Broker.Mintable(o.readiness, LeaseRequest(c, scope, b)) && o.resolves)
  }

  function LeaseEvent(c: Call, eventType: string): Event {
    Other(eventType, Obj([Field("decision_id", Num(c.auth.decision)), Field("tool_id", Str(c.tool)), Field("resource_id", Str(c.resource))]))
  }

  /** The trail of a lease: selected, then blocked, or minted and then injected or not resolved. */
  function LeaseTrail(cfg: Config, c: Call, scope: string, o: Outside): seq<Event> {
    match FindBinding(cfg.bindings, c.tool, scope, c.resource)
    case None => []
    case Some(b) =>
      [LeaseEvent(c, "credential_binding_selected")]
      + (if !Broker.Mintable(o.readiness, LeaseRequest(c, scope, b)) then [LeaseEvent(c, "credential_lease_blocked")]
         else [LeaseEvent(c, "credential_lease_minted"),
               LeaseEvent(c, if o.resolves then "credential_injected_by_gateway" else "credential_provider_resolution_failed")])
  }

  function LogAll(s: Store, session: string, events: seq<Event>): Store {
    if events == [] then s
    else Log(LogAll(s, session, events[..|events| - 1]), session, events[|events| - 1])
  }

  function TextAt(v: Value, key: string, default: string): string {
    if v.Obj? && Get(v.fields, key).Some? then TextOf(Get(v.fields, key).value) else default
  }

  function Executed(c: Call, payload: Value): Event {
    CallExecuted(c.auth.decision, c.auth.check, c.tool, c.resource, c.auth.proofHash, TextAt(Scrubbed(payload), "status", "ok"),
                 TextAt(Scrubbed(payload), "mode", "mock"))
  }

  function OutputRedacted(c: Call, redacted: seq<string>): Event {
    Other("output_redacted", Obj([Field("tool_id", Str(c.tool)), Field("resource_id", Str(c.resource)), Field("redacted_fields", Strings(redacted)),
                                  Field("proof_id", Str(c.auth.proofHash))]))
  }

  /** The redacted payload says that instructions were removed from it. */
  predicate UntrustedRedacted(payload: Value) {
    payload.Obj? && Get(payload.fields, "untrusted_instructions_redacted").Some?
    && Truthy(Scrubbed(Get(payload.fields, "untrusted_instructions_redacted").value))
  }

  /** The paths that `execute_downstream_tool` reports as redacted. */
  function RedactedFields(payload: Value): seq<string> {
    RenderAll(payload, "", Cuts(payload)) + (if UntrustedRedacted(payload) then ["prompt_injection"] else [])
  }

  /** `execute_downstream_tool`, after its guard: the audit events of an execution. */
  function LogExecution(s: Store, c: Call, payload: Value): Store {
    var executed := Log(s, c.session, Executed(c, payload));
    if RedactedFields(payload) == [] then executed else Log(executed, c.session, OutputRedacted(c, RedactedFields(payload)))
  }

  /** The lease, the guard and the execution of a call that consumed its grant; in every case the call is then over. */
  function ExecuteForCall(cfg: Config, w: World, d: nat, o: Outside): World {
    if d !in w.calls || w.calls[d].grant.None? then w
    else
      var c := w.calls[d];
      var scope := GrantScope(w.store.grants, c.grant.value);
      var used := LeaseUsed(cfg, c, scope, o);
      var leased := LogAll(w.store, c.session, LeaseTrail(cfg, c, scope, o));
      var over := w.(store := leased, calls := w.calls - {d});
      if used == Some(false) || !Checks.PassesAssertExecutable(c.auth.verdict, c.auth.state) || o.payload.None? then over
      else over.(store := LogExecution(leased, c, o.payload.value))
  }

  /** One tool call from beginning to end. */
  function HandleToolCall(cfg: Config, w: World, q: Question, tie: nat, o: Outside): World {
    hide BeginCall, ConsumeForCall, ExecuteForCall;
    var (w1, auth) := BeginCall(cfg, w, q);
    if auth.None? || !Executable(auth.value.verdict) then w1
    else ExecuteForCall(cfg, ConsumeForCall(cfg, w1, auth.value.decision, tie), auth.value.decision, o)
  }

  // ---- Runs ----

  /** What an agent can have logged without asking for anything. */
  datatype Note = Feedback(decision: string, outcome: string, note: string, agent: string) | RepairNeeded(tool: string, missing: seq<string>)

  function NoteEvent(note: Note): Event {
    match note
    case Feedback(decision, outcome, note, agent) =>
      Other("workflow_feedback_submitted",
            Obj([Field("decision_id", Str(decision)), Field("outcome", Str(outcome)), Field("note", Str(note)), Field("agent_id", Str(agent))]))
    case RepairNeeded(tool, missing) =>
      Other("tool_call_repair_requested", Obj([Field("tool_id", Str(tool)), Field("missing_arguments", Strings(missing))]))
  }

  /** Calls of many agents interleave between their authorization, their consumption and their execution. */
  datatype Step =
    | PreflightStep(session: string, agent: string, agentActive: bool, predictions: seq<Prediction>)
    | RequestScopeStep(question: Question)
    | BeginStep(question: Question)
    | ConsumeStep(call: nat, tie: nat)
    | ExecuteStep(call: nat, outside: Outside)
    | ApproveStep(request: nat, approver: string)
    | NoteStep(session: string, note: Note)
    | TickStep(seconds: nat)

  function Approve(cfg: Config, w: World, request: nat, approver: string): World {
    match ApproveRequest(w.store, request, approver)
    case Err(_) => w
    case Ok(store) => if store == w.store then w else Sync(cfg, w.(store := store))
  }

  function Apply(cfg: Config, w: World, step: Step): World {
    hide RunPreflight, RunAuthorize, BeginCall, ConsumeForCall, ExecuteForCall, Approve;
    match step
    case PreflightStep(session, agent, agentActive, predictions) => RunPreflight(cfg, w, session, agent, agentActive, predictions)
    case RequestScopeStep(q) => RunAuthorize(cfg, w, q).0
    case BeginStep(q) => BeginCall(cfg, w, q).0
    case ConsumeStep(call, tie) => ConsumeForCall(cfg, w, call, tie)
    case ExecuteStep(call, outside) => ExecuteForCall(cfg, w, call, outside)
    case ApproveStep(request, approver) => Approve(cfg, w, request, approver)
    case NoteStep(session, note) => w.(store := Log(w.store, session, NoteEvent(note)))
    case TickStep(seconds) =>
      w.(store := w.store.(now := w.store.now + seconds), checks := w.checks.(now := w.checks.now + seconds))
  }

  function Run(cfg: Config, w: World, steps: seq<Step>): World {
    hide Apply;
    if steps == [] then w else Apply(cfg, Run(cfg, w, steps[..|steps| - 1]), steps[|steps| - 1])
  }
}
