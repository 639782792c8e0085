/** Grants, access requests and the event log (platform/dolt_store.py), as operations on values. */
module Ledger {
  import opened Wrappers
  import opened Text
  import opened Json
  import opened PolicyTable
  import opened GrantLifecycle
  import opened GraphFallback

  // ---- Rows ----

  datatype Status = Pending | Approved

  /** A row of `access_requests`. */
  datatype Request = Request(
    id: nat, session: string, user: string, agent: string, scope: string, resource: string, tool: string,
    reason: string, recipe: Option<string>, proofId: string, origin: string, predictionId: Option<string>,
    confidence: Option<int>, traces: seq<string>, phase: string, early: bool, sentAt: nat,
    firstToolCallAt: Option<nat>, status: Status, approver: Option<string>, createdAt: nat)

  /** The arguments of `create_access_request`. */
  datatype RequestArgs = RequestArgs(
    session: string, user: string, agent: string, scope: string, resource: string, tool: string, reason: string,
    recipe: Option<string>, proofId: string, origin: string, predictionId: Option<string>, confidence: Option<int>,
    traces: seq<string>, phase: string, early: bool)

  /** What the gateway writes to the log; the events that no property here speaks about are `Other`. */
  datatype Event =
    | GrantIssued(grant: nat, scope: string, resource: string, issuer: string, proofId: string, reason: string, ttl: nat, count: nat)
    | GrantConsumed(grant: nat, tool: string, resource: string, decision: nat, remaining: int)
    | RequestOpened(request: nat, args: RequestArgs)
    | RequestApproved(request: nat, approver: string, grant: nat, scope: string, resource: string)
    | ToolCallObserved(request: nat, tool: string, resource: string, origin: string, early: bool)
    | DecisionRecorded(decision: nat, check: nat, checkState: string, verdict: Decision, tool: string, resource: string,
                       snapshot: nat, proofHash: string)
    | CallExecuted(decision: nat, check: nat, tool: string, resource: string, proofId: string, status: string, mode: string)
    | Other(eventType: string, body: Value)

  datatype Entry = Entry(session: string, event: Event)

  /** The tables, with the database clock in seconds and a source of fresh identifiers. */
  datatype Store = Store(grants: seq<Grant>, requests: seq<Request>, log: seq<Entry>, now: nat, nextId: nat)

  const AUTO_ISSUER := "policy:auto_approve"
  const HUMAN_PREFIX := "human:"
  const PREFLIGHT_ORIGIN := "preflight_prediction"

  predicate HumanIssued(g: Grant) {
    HUMAN_PREFIX <= g.issuer
  }

  // ---- Events ----

  /** `append_session_event` */
  function Log(s: Store, session: string, event: Event): Store {
    s.(log := s.log + [Entry(session, event)])
  }

  // ---- Grants ----

  /** `_insert_grant` */
  function InsertGrant(s: Store, session: string, scope: string, resource: string, issuer: string, proofId: string, ttl: nat, count: nat): Store {
    s.(grants := s.grants + [Grant(s.nextId, session, scope, resource, issuer, proofId, count, count, Some(s.now + ttl), s.now)],
       nextId := s.nextId + 1)
  }

  /** `issue_ephemeral_grant` as the gateway calls it: one use within fifteen minutes. */
  function IssueEphemeralGrant(s: Store, session: string, scope: string, resource: string, proofId: string, reason: string): Store {
    Log(InsertGrant(s, session, scope, resource, AUTO_ISSUER, proofId, 900, 1),
        session, GrantIssued(s.nextId, scope, resource, AUTO_ISSUER, proofId, reason, 900, 1))
  }

  /** The rows that the query of `consume_grant_for_tool` joins and filters. */
  predicate Consumable(g: Grant, scopes: seq<ToolScopeRec>, session: string, tool: string, resource: string, now: nat) {
    && g.session == session && g.resource == resource && SqlActive(g, now)
    && exists t :: t in scopes && t.tool == tool && t.scope == g.scope
  }

  /** A row that `ORDER BY created_at DESC LIMIT 1` may return. */
  predicate Newest(grants: seq<Grant>, i: nat, scopes: seq<ToolScopeRec>, session: string, tool: string, resource: string, now: nat) {
    && i < |grants| && Consumable(grants[i], scopes, session, tool, resource, now)
    && forall j :: 0 <= j < |grants| && Consumable(grants[j], scopes, session, tool, resource, now) ==> grants[j].createdAt <= grants[i].createdAt
  }

  function NewestAmong(grants: seq<Grant>, n: nat, scopes: seq<ToolScopeRec>, session: string, tool: string, resource: string, now: nat): (r: Option<nat>)
    requires n <= |grants|
    ensures r.Some? ==> r.value < n && Consumable(grants[r.value], scopes, session, tool, resource, now)
    ensures r.Some? ==> forall j :: 0 <= j < n && Consumable(grants[j], scopes, session, tool, resource, now) ==> grants[j].createdAt <= grants[r.value].createdAt
    ensures r.None? ==> forall j :: 0 <= j < n ==> !Consumable(grants[j], scopes, session, tool, resource, now)
  {
    if n == 0 then None
    else
      var before := NewestAmong(grants, n - 1, scopes, session, tool, resource, now);
      if !Consumable(grants[n - 1], scopes, session, tool, resource, now) then before
      else if before.Some? && grants[before.value].createdAt >= grants[n - 1].createdAt then before
      else Some(n - 1)
  }

  /** The selected row; among rows created in the same second the database may return any, here the one `tie` names. */
  function Select(grants: seq<Grant>, scopes: seq<ToolScopeRec>, session: string, tool: string, resource: string, now: nat, tie: nat): (r: Option<nat>)
    ensures r.Some? ==> Newest(grants, r.value, scopes, session, tool, resource, now)
    ensures r.None? ==> forall j :: 0 <= j < |grants| ==> !Consumable(grants[j], scopes, session, tool, resource, now)
    ensures Newest(grants, tie, scopes, session, tool, resource, now) ==> r == Some(tie)
  {
    if Newest(grants, tie, scopes, session, tool, resource, now) then Some(tie)
    else NewestAmong(grants, |grants|, scopes, session, tool, resource, now)
  }

  /** `consume_grant_for_tool`, and the position of the consumed grant. */
  function Consume(s: Store, scopes: seq<ToolScopeRec>, session: string, tool: string, resource: string, decision: nat, tie: nat): (r: (Store, Option<nat>))
    ensures r.1.Some? ==> r.1.value < |s.grants| && |r.0.grants| == |s.grants|
  {
    match Select(s.grants, scopes, session, tool, resource, s.now, tie)
    case None => (s, None)
    case Some(i) =>
      var g := s.grants[i];
      (Log(s.(grants := s.grants[i := g.(remaining := g.remaining - 1)]), session,
           GrantConsumed(g.id, tool, resource, decision, g.remaining - 1)), Some(i))
  }

  // ---- Access requests ----

  predicate Matches(r: Request, session: string, scope: string, resource: string, tool: string) {
    r.session == session && r.scope == scope && r.resource == resource && r.tool == tool
  }

  /** The pending request for the same session, scope, resource and tool. */
  function PendingIndex(requests: seq<Request>, a: RequestArgs): (r: Option<nat>)
    ensures r.Some? ==> r.value < |requests| && Matches(requests[r.value], a.session, a.scope, a.resource, a.tool) && requests[r.value].status == Pending
    ensures r.None? ==> forall j :: 0 <= j < |requests| && requests[j].status == Pending ==> !Matches(requests[j], a.session, a.scope, a.resource, a.tool)
  {
    if requests == [] then None
    else
      var n := |requests| - 1;
      if requests[n].status == Pending && Matches(requests[n], a.session, a.scope, a.resource, a.tool) then Some(n)
      else PendingIndex(requests[..n], a)
  }

  function Coalesce<T>(a: Option<T>, b: Option<T>): Option<T> {
    if a.Some? then a else b
  }

  /** The `UPDATE` of a request that is already pending. */
  function Refreshed(r: Request, a: RequestArgs, now: nat): Request {
    r.(reason := a.reason, recipe := a.recipe, proofId := a.proofId, agent := a.agent,
       origin := if r.origin == PREFLIGHT_ORIGIN then r.origin else a.origin,
       predictionId := Coalesce(r.predictionId, a.predictionId), confidence := Coalesce(r.confidence, a.confidence),
       phase := a.phase, early := r.early || a.early,
       firstToolCallAt := if a.phase == "authorize" && r.firstToolCallAt.None? then Some(now) else r.firstToolCallAt)
  }

  function NewRequest(id: nat, a: RequestArgs, now: nat): Request {
    Request(id, a.session, a.user, a.agent, a.scope, a.resource, a.tool, a.reason, a.recipe, a.proofId, a.origin,
            a.predictionId, a.confidence, a.traces, a.phase, a.early, now,
            if a.phase == "authorize" then Some(now) else None, Pending, None, now)
  }

  /** `create_access_request` */
  function CreateRequest(s: Store, a: RequestArgs): Store {
    match PendingIndex(s.requests, a)
    case Some(i) => s.(requests := s.requests[i := Refreshed(s.requests[i], a, s.now)])
    case None =>
      Log(s.(requests := s.requests + [NewRequest(s.nextId, a, s.now)], nextId := s.nextId + 1),
          a.session, RequestOpened(s.nextId, a))
  }

  function RequestIndex(requests: seq<Request>, id: nat): (r: Option<nat>)
    ensures r.Some? ==> r.value < |requests| && requests[r.value].id == id
    ensures r.None? ==> forall j :: 0 <= j < |requests| ==> requests[j].id != id
  {
    if requests == [] then None
    else
      var n := |requests| - 1;
      if requests[n].id == id then Some(n) else RequestIndex(requests[..n], id)
  }

  function RequestText(id: nat): string {
    "req_" + Decimal(id)
  }

  /** `approve_access_request`; an error is the exception for an unknown request. Five uses within the hour. */
  function ApproveRequest(s: Store, id: nat, approver: string): Result<Store> {
    match RequestIndex(s.requests, id)
    case None => Err("unknown request")
    case Some(i) =>
      var r := s.requests[i];
      if r.status == Approved then Ok(s)
      else
        var marked := s.(requests := s.requests[i := r.(status := Approved, approver := Some(approver))]);
        var granted := InsertGrant(marked, r.session, r.scope, r.resource, HUMAN_PREFIX + approver,
                                   if r.proofId != "" then r.proofId else RequestText(id), 3600, 5);
        Ok(Log(granted, r.session, RequestApproved(id, approver, s.nextId, r.scope, r.resource)))
  }

  predicate Unseen(r: Request, session: string, tool: string, resource: string) {
    r.session == session && r.tool == tool && r.resource == resource && r.firstToolCallAt.None?
  }

  predicate Sooner(a: Request, b: Request) {
    a.createdAt < b.createdAt || (a.createdAt == b.createdAt && a.id < b.id)
  }

  /** `ORDER BY created_at ASC, request_id ASC LIMIT 1` over the requests without a first tool call. */
  function EarliestUnseen(requests: seq<Request>, session: string, tool: string, resource: string): (r: Option<nat>)
    ensures r.Some? ==> r.value < |requests| && Unseen(requests[r.value], session, tool, resource)
    ensures r.Some? ==> forall j :: 0 <= j < |requests| && Unseen(requests[j], session, tool, resource) ==> !Sooner(requests[j], requests[r.value])
    ensures r.None? ==> forall j :: 0 <= j < |requests| ==> !Unseen(requests[j], session, tool, resource)
  {
    if requests == [] then None
    else
      var n := |requests| - 1;
      var before := EarliestUnseen(requests[..n], session, tool, resource);
      if !Unseen(requests[n], session, tool, resource) then before
      else if before.Some? && !Sooner(requests[n], requests[before.value]) then before
      else Some(n)
  }

  /** `mark_access_request_tool_call_seen` */
  function MarkToolCallSeen(s: Store, session: string, tool: string, resource: string): Store {
    match EarliestUnseen(s.requests, session, tool, resource)
    case None => s
    case Some(i) =>
      var r := s.requests[i];
      Log(s.(requests := s.requests[i := r.(firstToolCallAt := Some(s.now))]), session,
          ToolCallObserved(r.id, tool, resource, r.origin, r.early))
  }
}
