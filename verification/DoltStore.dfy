/** The store as an object whose tables are updated in place (platform/dolt_store.py). */
module DoltStore {
  import opened Wrappers
  import opened Json
  import opened Canonical
  import opened Redaction
  import opened GrantLifecycle
  import opened GraphFallback
  import opened AuditLog
  import opened Ledger
  import opened LedgerInvariant
  import opened LedgerEvents

  class DoltStore {
    const sha: Value -> string
    const toolScopes: seq<ToolScopeRec>
    var grants: seq<Grant>
    var requests: seq<Request>
    var events: seq<EventRow>
    var now: nat
    var nextId: nat
    ghost var log: seq<Entry>

    ghost function State(): Store
      reads this
    {
      Store(grants, requests, log, now, nextId)
    }

    /** The event table holds exactly the logged events, chained. */
    ghost predicate Valid()
      reads this
    {
      events == EventTable(sha, AppendsOf(log)) && Inv(State())
    }

    constructor (sha: Value -> string, toolScopes: seq<ToolScopeRec>, seeds: seq<Grant>, firstFree: nat)
      requires Seeded(Store(seeds, [], [], 0, firstFree))
      ensures Valid() && State() == Store(seeds, [], [], 0, firstFree)
      ensures this.sha == sha && this.toolScopes == toolScopes
    {
      this.sha, this.toolScopes, grants, requests, events, now, nextId, log := sha, toolScopes, seeds, [], [], 0, firstFree, [];
      SeededInv(Store(seeds, [], [], 0, firstFree));
    }

    /** `_append_session_event` */
    method AppendEvent(session: string, event: Event) returns (row: EventRow)
      requires events == EventTable(sha, AppendsOf(log))
      modifies this`events, this`log
      ensures events == EventTable(sha, AppendsOf(log))
      ensures State() == Log(old(State()), session, event)
      ensures events == old(events) + [row] && row == NewRow(sha, old(events), AppendOf(Entry(session, event)))
    {
      hide Scrubbed, SortKeys, EventBody, EventType, Payload, LatestHash, NextOrder, Inv;
      var safeBody := ScrubSensitive(EventBody(event));
      var previous := LatestHash(events, session);
      var order := NextOrder(events, session);
      var hash := StableHash(sha, Payload(|events|, session, EventType(event), safeBody, previous, order));
      row := EventRow(|events|, session, EventType(event), SortKeys(safeBody), order, previous, hash);
      ghost var before := AppendsOf(log);
      events := events + [row];
      log := log + [Entry(session, event)];
      assert AppendsOf(log) == before + [AppendOf(Entry(session, event))];
      assert AppendsOf(log)[..|before|] == before;
    }

    /** `append_session_event` */
    method AppendSessionEvent(session: string, event: Event)
      requires Valid() && LedgerInvariant.Plain(event)
      modifies this`events, this`log
      ensures Valid() && State() == Log(old(State()), session, event)
    {
      LogKeepsInv(State(), session, event);
      var _ := AppendEvent(session, event);
    }

    /** `_insert_grant` */
    method AddGrant(session: string, scope: string, resource: string, issuer: string, proofId: string, ttl: nat, count: nat)
      returns (grant: Grant)
      modifies this`grants, this`nextId
      ensures State() == InsertGrant(old(State()), session, scope, resource, issuer, proofId, ttl, count)
      ensures grants == old(grants) + [grant] && grant.id == old(nextId)
    {
      grant := Grant(nextId, session, scope, resource, issuer, proofId, count, count, Some(now + ttl), now);
      grants := grants + [grant];
      nextId := nextId + 1;
    }

    /** `issue_ephemeral_grant` */
    method IssueGrant(session: string, scope: string, resource: string, proofId: string, reason: string) returns (grant: Grant)
      requires Valid()
      modifies this`grants, this`nextId, this`events, this`log
      ensures Valid() && State() == IssueEphemeralGrant(old(State()), session, scope, resource, proofId, reason)
      ensures grants == old(grants) + [grant]
    {
      hide Inv, EventTable;
      IssueKeepsInv(State(), session, scope, resource, proofId, reason);
      grant := AddGrant(session, scope, resource, AUTO_ISSUER, proofId, 900, 1);
      var _ := AppendEvent(session, GrantIssued(grant.id, scope, resource, AUTO_ISSUER, proofId, reason, 900, 1));
    }

    /** `consume_grant_for_tool`; `tie` stands for the database's choice among rows created in the same second. */
    method ConsumeGrantForTool(session: string, tool: string, resource: string, decision: nat, tie: nat) returns (consumed: Option<Grant>)
      requires Valid()
      modifies this`grants, this`events, this`log
      ensures Valid() && State() == Consume(old(State()), toolScopes, session, tool, resource, decision, tie).0
      ensures consumed == match Consume(old(State()), toolScopes, session, tool, resource, decision, tie).1
                          case Some(i) => Some(grants[i]) case None => None
    {
      hide Inv, EventTable;
      ConsumeKeepsInv(State(), toolScopes, session, tool, resource, decision, tie);
      var selected := Select(grants, toolScopes, session, tool, resource, now, tie);
      if selected.None? {
        return None;
      }
      var grant := grants[selected.value];
      if grant.remaining > 0 {
        grants := grants[selected.value := grant.(remaining := grant.remaining - 1)];
      }
      grant := grant.(remaining := grant.remaining - 1);
      var _ := AppendEvent(session, GrantConsumed(grant.id, tool, resource, decision, grant.remaining));
      consumed := Some(grant);
    }

    /** `create_access_request`, and the id of the request */
    method CreateAccessRequest(a: RequestArgs) returns (id: nat)
      requires Valid()
      modifies this`requests, this`nextId, this`events, this`log
      ensures Valid() && State() == CreateRequest(old(State()), a)
      ensures exists i :: 0 <= i < |requests| && requests[i].id == id && requests[i].status == Pending
                          && Matches(requests[i], a.session, a.scope, a.resource, a.tool)
    {
      hide Inv, EventTable;
      CreateRequestKeepsInv(State(), a);
      var existing := PendingIndex(requests, a);
      if existing.Some? {
        var i := existing.value;
        id := requests[i].id;
        requests := requests[i := Refreshed(requests[i], a, now)];
        assert requests[i].id == id;
      } else {
        id := nextId;
        requests := requests + [NewRequest(id, a, now)];
        nextId := nextId + 1;
        assert requests[|requests| - 1].id == id;
        var _ := AppendEvent(a.session, RequestOpened(id, a));
      }
    }

    /** `approve_access_request` */
    method ApproveAccessRequest(id: nat, approver: string) returns (r: Result<bool>)
      requires Valid()
      modifies this`requests, this`grants, this`nextId, this`events, this`log
      ensures Valid()
      ensures r.Ok? <==> ApproveRequest(old(State()), id, approver).Ok?
      ensures r.Ok? ==> Ok(State()) == ApproveRequest(old(State()), id, approver)
      ensures r.Err? ==> State() == old(State())
      ensures r.Ok? ==> (r.value <==> State() != old(State()))
    {
      hide Inv, EventTable;
      if ApproveRequest(State(), id, approver).Ok? {
        ApproveKeepsInv(State(), id, approver);
      }
      var found := RequestIndex(requests, id);
      if found.None? {
        return Err("unknown request");
      }
      var i := found.value;
      var request := requests[i];
      if request.status == Approved {
        return Ok(false);
      }
      requests := requests[i := request.(status := Approved, approver := Some(approver))];
      var grant := AddGrant(request.session, request.scope, request.resource, HUMAN_PREFIX + approver,
                            if request.proofId != "" then request.proofId else RequestText(id), 3600, 5);
      var _ := AppendEvent(request.session, RequestApproved(id, approver, grant.id, request.scope, request.resource));
      assert |grants| == |old(grants)| + 1;
      r := Ok(true);
    }

    /** `mark_access_request_tool_call_seen` */
    method MarkSeen(session: string, tool: string, resource: string) returns (seen: Option<nat>)
      requires Valid()
      modifies this`requests, this`events, this`log
      ensures Valid() && State() == MarkToolCallSeen(old(State()), session, tool, resource)
      ensures seen.Some? <==> exists i :: 0 <= i < |old(requests)| && Unseen(old(requests)[i], session, tool, resource)
      ensures seen.Some? ==> exists i :: 0 <= i < |requests| && requests[i].id == seen.value && requests[i] != old(requests)[i]
    {
      hide Inv, EventTable;
      SeenKeepsInv(State(), session, tool, resource);
      var found := EarliestUnseen(requests, session, tool, resource);
      if found.None? {
        return None;
      }
      var request := requests[found.value];
      requests := requests[found.value := request.(firstToolCallAt := Some(now))];
      var _ := AppendEvent(session, ToolCallObserved(request.id, tool, resource, request.origin, request.early));
      seen := Some(request.id);
    }

    /** `find_active_grant_for_tool` */
    method FindActiveGrantForTool(session: string, tool: string, resource: string, tie: nat) returns (grant: Option<Grant>)
      ensures grant.Some? <==> exists g :: g in grants && Consumable(g, toolScopes, session, tool, resource, now)
      ensures grant.Some? ==> grant.value in grants && Consumable(grant.value, toolScopes, session, tool, resource, now)
    {
      var selected := Select(grants, toolScopes, session, tool, resource, now, tie);
      if selected.Some? {
        grant := Some(grants[selected.value]);
      } else {
        grant := None;
      }
    }

    /** A row of another table takes a fresh id. */
    method TakeId() returns (id: nat)
      requires Valid()
      modifies this`nextId
      ensures Valid() && State() == old(State()).(nextId := old(nextId) + 1) && id == old(nextId)
    {
      hide Inv, EventTable;
      FreshIdKeepsInv(State());
      id := nextId;
      nextId := nextId + 1;
    }

    /** The grants part of `fetch_all_for_sync` */
    method FetchGrants() returns (rows: seq<Grant>)
      ensures rows == ActiveGrants(grants, now)
    {
      rows := ActiveGrants(grants, now);
    }

    /** The database clock is monotone. */
    method Tick(seconds: nat)
      requires Valid()
      modifies this`now
      ensures Valid() && State() == old(State()).(now := old(now) + seconds)
    {
      hide Inv, EventTable;
      TickKeepsInv(State(), seconds);
      now := now + seconds;
    }
  }
}
