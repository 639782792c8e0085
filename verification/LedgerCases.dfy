/**
 * What one call does to the tables of grants and access requests (platform/dolt_store.py), case by case and row by row.
 */
module LedgerCases {
  import opened Wrappers
  import opened Text
  import opened GrantLifecycle
  import opened GraphFallback
  import opened Ledger

  // ---- Rows ----

  /** One grant was appended under the next id, with its full count, and it runs out after so many seconds. */
  predicate GrantAppended(s: Store, t: Store, session: string, scope: string, resource: string, issuer: string, proof: string, uses: nat, ttl: nat) {
    && t.nextId == s.nextId + 1 && t.now == s.now && |t.grants| == |s.grants| + 1 && t.grants[..|s.grants|] == s.grants
    && t.grants[|s.grants|] == Grant(s.nextId, session, scope, resource, issuer, proof, uses, uses, Some(s.now + ttl), s.now)
  }

  /** One entry was appended to the log. */
  predicate Logged(s: Store, t: Store, session: string, e: Event) {
    t.log == s.log + [Entry(session, e)]
  }

  /** One request row was rewritten; the others, the ids and the clock are as they were. */
  predicate RequestRewritten(s: Store, t: Store, i: nat, r: Request) {
    i < |s.requests| && t.requests == s.requests[i := r] && t.now == s.now
  }

  // ---- Grants ----

  /** Auto-approval leaves a fresh grant for one use within fifteen minutes, and tells of it. */
  lemma IssuedGrant(s: Store, session: string, scope: string, resource: string, proof: string, reason: string)
    ensures var t := IssueEphemeralGrant(s, session, scope, resource, proof, reason);
      && GrantAppended(s, t, session, scope, resource, "policy:auto_approve", proof, 1, 900)
      && Logged(s, t, session, GrantIssued(s.nextId, scope, resource, "policy:auto_approve", proof, reason, 900, 1))
      && t.requests == s.requests
  {
  }

  /** A grant can be used before its expiry while a use is left; one without an expiry as long as a use is left. */
  lemma ActiveExactlyWhen(g: Grant, now: nat)
    ensures SqlActive(g, now) <==> g.remaining > 0 && (g.expiresAt.Some? ==> now < g.expiresAt.value)
  {
  }

  /** The grant is the session's, for the resource and one of the tool's scopes, and can be used now. */
  ghost predicate UsableFor(g: Grant, scopes: seq<ToolScopeRec>, session: string, tool: string, resource: string, now: nat) {
    && g.session == session && g.resource == resource && g.remaining > 0 && (g.expiresAt.Some? ==> now < g.expiresAt.value)
    && exists t :: t in scopes && t.tool == tool && t.scope == g.scope
  }

  /** The grant at position `i` loses one use, and the log tells of it; it is a newest usable one. */
  ghost predicate UseTaken(s: Store, t: Store, scopes: seq<ToolScopeRec>, session: string, tool: string, resource: string, decision: nat, i: nat) {
    && i < |s.grants| && UsableFor(s.grants[i], scopes, session, tool, resource, s.now)
    && (forall j :: 0 <= j < |s.grants| && UsableFor(s.grants[j], scopes, session, tool, resource, s.now)
          ==> s.grants[j].createdAt <= s.grants[i].createdAt)
    && t == s.(grants := s.grants[i := s.grants[i].(remaining := s.grants[i].remaining - 1)], log := t.log)
    && Logged(s, t, session, GrantConsumed(s.grants[i].id, tool, resource, decision, s.grants[i].remaining - 1))
  }

  /** A consumption takes a use from a newest usable grant; without a usable grant nothing happens. */
  lemma ConsumptionTakesNewest(
    s: Store, scopes: seq<ToolScopeRec>, session: string, tool: string, resource: string, decision: nat, tie: nat)
    ensures var (t, i) := Consume(s, scopes, session, tool, resource, decision, tie);
      if i.Some? then UseTaken(s, t, scopes, session, tool, resource, decision, i.value)
      else t == s && forall j :: 0 <= j < |s.grants| ==> !UsableFor(s.grants[j], scopes, session, tool, resource, s.now)
  {
    hide Select;
    forall g ensures UsableFor(g, scopes, session, tool, resource, s.now) <==> Consumable(g, scopes, session, tool, resource, s.now) {
    }
  }

  /** Approval: exactly for a known request; a pending one is marked and gets five uses within the hour, once. */
  lemma ApprovedRequestGetsGrant(s: Store, id: nat, approver: string)
    ensures ApproveRequest(s, id, approver).Err? <==> forall r :: r in s.requests ==> r.id != id
    ensures forall i :: 0 <= i < |s.requests| && s.requests[i].id == id
                        && (forall j :: 0 <= j < |s.requests| && s.requests[j].id == id ==> j == i) ==>
              ApprovedTo(s, ApproveRequest(s, id, approver).value, i, approver)
  {
  }

  predicate ApprovedTo(s: Store, t: Store, i: nat, approver: string)
    requires i < |s.requests|
  {
    var r := s.requests[i];
    if r.status == Approved then t == s
    else
      && RequestRewritten(s, t, i, r.(status := Approved, approver := Some(approver)))
      && GrantAppended(s, t, r.session, r.scope, r.resource, "human:" + approver,
                       if r.proofId != "" then r.proofId else "req_" + Decimal(r.id), 5, 3600)
      && Logged(s, t, r.session, RequestApproved(r.id, approver, s.nextId, r.scope, r.resource))
  }

  // ---- Requests ----

  /** A pending request for the same session, scope, resource and tool. */
  predicate PendingFor(r: Request, a: RequestArgs) {
    r.status == Pending && r.session == a.session && r.scope == a.scope && r.resource == a.resource && r.tool == a.tool
  }

  /** A request that was appended now; made by a tool call, it has its first tool call. */
  predicate RequestAppended(s: Store, t: Store, a: RequestArgs) {
    && t.now == s.now && t.grants == s.grants && t.nextId == s.nextId + 1
    && |t.requests| == |s.requests| + 1 && t.requests[..|s.requests|] == s.requests
    && t.requests[|s.requests|]
       == Request(s.nextId, a.session, a.user, a.agent, a.scope, a.resource, a.tool, a.reason, a.recipe, a.proofId, a.origin,
                  a.predictionId, a.confidence, a.traces, a.phase, a.early, s.now, if a.phase == "authorize" then Some(s.now) else None,
                  Pending, None, s.now)
    && Logged(s, t, a.session, RequestOpened(s.nextId, a))
  }

  /**
   * A pending request takes over the newer reason, recipe, proof, agent and phase; what foresaw it is kept, what it did
   * not know is added, and the first tool call is marked now if it is one and there was none.
   */
  predicate RequestRefreshed(s: Store, t: Store, i: nat, a: RequestArgs)
    requires i < |s.requests|
  {
    var r := s.requests[i];
    && t.log == s.log && t.grants == s.grants && t.nextId == s.nextId
    && RequestRewritten(s, t, i, r.(
         reason := a.reason, recipe := a.recipe, proofId := a.proofId, agent := a.agent, phase := a.phase,
         origin := if r.origin == "preflight_prediction" then "preflight_prediction" else a.origin,
         predictionId := if r.predictionId.Some? then r.predictionId else a.predictionId,
         confidence := if r.confidence.Some? then r.confidence else a.confidence,
         early := r.early || a.early,
         firstToolCallAt := if r.firstToolCallAt.Some? || a.phase != "authorize" then r.firstToolCallAt else Some(s.now)))
  }

  /** Asking for access refreshes the request that is pending for it, or opens one. */
  lemma RequestOpensOrRefreshes(s: Store, a: RequestArgs)
    ensures if forall r :: r in s.requests ==> !PendingFor(r, a) then RequestAppended(s, CreateRequest(s, a), a)
            else exists i: nat :: i < |s.requests| && PendingFor(s.requests[i], a) && RequestRefreshed(s, CreateRequest(s, a), i, a)
  {
    var p := PendingIndex(s.requests, a);
    if p.Some? {
      assert s.requests[p.value] in s.requests && PendingFor(s.requests[p.value], a);
      assert RequestRefreshed(s, CreateRequest(s, a), p.value, a);
    }
  }

  /** A request for the call that no tool call has reached yet. */
  predicate AwaitsCall(r: Request, session: string, tool: string, resource: string) {
    r.session == session && r.tool == tool && r.resource == resource && r.firstToolCallAt.None?
  }

  predicate Earlier(a: Request, b: Request) {
    a.createdAt < b.createdAt || (a.createdAt == b.createdAt && a.id < b.id)
  }

  /** The first tool call of an awaited request is marked now, for the request that has waited longest. */
  lemma ToolCallMarksEarliest(s: Store, session: string, tool: string, resource: string)
    ensures var t := MarkToolCallSeen(s, session, tool, resource);
      if forall r :: r in s.requests ==> !AwaitsCall(r, session, tool, resource) then t == s
      else exists i: nat :: i < |s.requests| && MarkedEarliest(s, t, i, session, tool, resource)
  {
    var e := EarliestUnseen(s.requests, session, tool, resource);
    if e.Some? {
      assert s.requests[e.value] in s.requests && AwaitsCall(s.requests[e.value], session, tool, resource);
      forall j | 0 <= j < |s.requests| && AwaitsCall(s.requests[j], session, tool, resource)
        ensures !Earlier(s.requests[j], s.requests[e.value])
      {
        assert Unseen(s.requests[j], session, tool, resource);
      }
      assert MarkedEarliest(s, MarkToolCallSeen(s, session, tool, resource), e.value, session, tool, resource);
    }
  }

  predicate MarkedEarliest(s: Store, t: Store, i: nat, session: string, tool: string, resource: string)
    requires i < |s.requests|
  {
    var r := s.requests[i];
    && AwaitsCall(r, session, tool, resource)
    && (forall j :: 0 <= j < |s.requests| && AwaitsCall(s.requests[j], session, tool, resource) ==> !Earlier(s.requests[j], r))
    && RequestRewritten(s, t, i, r.(firstToolCallAt := Some(s.now))) && t.grants == s.grants && t.nextId == s.nextId
    && Logged(s, t, session, ToolCallObserved(r.id, tool, resource, r.origin, r.early))
  }
}
