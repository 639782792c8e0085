/** What every run of the store keeps: grants are conserved, requests are deduplicated, approvals are honoured once. */
module LedgerInvariant {
  import opened Wrappers
  import opened GrantLifecycle
  import opened GraphFallback
  import opened Ledger

  // ---- Counting events ----

  /** How often the grant was consumed. */
  function Uses(log: seq<Entry>, grant: nat): nat {
    if log == [] then 0
    else
      var n := |log| - 1;
      Uses(log[..n], grant) + (if log[n].event.GrantConsumed? && log[n].event.grant == grant then 1 else 0)
  }

  /** How many consumptions the session logged. */
  function SessionUses(log: seq<Entry>, session: string): nat {
    if log == [] then 0
    else
      var n := |log| - 1;
      SessionUses(log[..n], session) + (if log[n].event.GrantConsumed? && log[n].session == session then 1 else 0)
  }

  /** How often the request was approved. */
  function ApprovalsOf(log: seq<Entry>, request: nat): nat {
    if log == [] then 0
    else
      var n := |log| - 1;
      ApprovalsOf(log[..n], request) + (if log[n].event.RequestApproved? && log[n].event.request == request then 1 else 0)
  }

  /** How many approvals name the grant. */
  function ApprovalsNaming(log: seq<Entry>, grant: nat): nat {
    if log == [] then 0
    else
      var n := |log| - 1;
      ApprovalsNaming(log[..n], grant) + (if log[n].event.RequestApproved? && log[n].event.grant == grant then 1 else 0)
  }

  lemma CountsAppend(log: seq<Entry>, e: Entry)
    ensures forall id :: Uses(log + [e], id) == Uses(log, id) + (if e.event.GrantConsumed? && e.event.grant == id then 1 else 0)
    ensures forall x :: SessionUses(log + [e], x) == SessionUses(log, x) + (if e.event.GrantConsumed? && e.session == x then 1 else 0)
    ensures forall id :: ApprovalsOf(log + [e], id) == ApprovalsOf(log, id) + (if e.event.RequestApproved? && e.event.request == id then 1 else 0)
    ensures forall id :: ApprovalsNaming(log + [e], id) == ApprovalsNaming(log, id) + (if e.event.RequestApproved? && e.event.grant == id then 1 else 0)
  {
  }

  /** The uses that the session's grants were issued with. */
  function Issued(grants: seq<Grant>, session: string): int {
    if grants == [] then 0
    else
      var n := |grants| - 1;
      Issued(grants[..n], session) + (if grants[n].session == session then grants[n].initial else 0)
  }

  /** The uses that the session's grants have left. */
  function Left(grants: seq<Grant>, session: string): int {
    if grants == [] then 0
    else
      var n := |grants| - 1;
      Left(grants[..n], session) + (if grants[n].session == session then grants[n].remaining else 0)
  }

  lemma SumsAppend(grants: seq<Grant>, g: Grant, session: string)
    ensures Issued(grants + [g], session) == Issued(grants, session) + (if g.session == session then g.initial else 0)
    ensures Left(grants + [g], session) == Left(grants, session) + (if g.session == session then g.remaining else 0)
  {
  }

  lemma {:induction false} SumsUpdate(grants: seq<Grant>, i: nat, g: Grant, session: string)
    requires i < |grants| && g.session == grants[i].session && g.initial == grants[i].initial
    ensures Issued(grants[i := g], session) == Issued(grants, session)
    ensures Left(grants[i := g], session)
         == Left(grants, session) + (if g.session == session then g.remaining - grants[i].remaining else 0)
  {
    var n := |grants| - 1;
    if i == n {
      assert grants[i := g][..n] == grants[..n];
    } else {
      assert grants[i := g][..n] == grants[..n][i := g];
      SumsUpdate(grants[..n], i, g, session);
    }
  }

  lemma {:induction false} LeftIsNatural(grants: seq<Grant>, session: string)
    requires forall i :: 0 <= i < |grants| ==> grants[i].remaining >= 0
    ensures Left(grants, session) >= 0
  {
    if grants != [] {
      LeftIsNatural(grants[..|grants| - 1], session);
    }
  }

  // ---- The invariant ----

  /** The initial count of a grant is what remains plus its logged uses; a human grant is named by one approval. */
  predicate GrantOk(g: Grant, log: seq<Entry>, nextId: nat) {
    && g.id < nextId && g.remaining >= 0
    && g.initial == g.remaining + Uses(log, g.id)
    && ApprovalsNaming(log, g.id) == (if HumanIssued(g) then 1 else 0)
  }

  predicate RequestOk(r: Request, log: seq<Entry>, nextId: nat) {
    r.id < nextId && ApprovalsOf(log, r.id) == (if r.status == Approved then 1 else 0)
  }

  /** An approval tells of an approved request of the session. */
  predicate ApprovedRequest(r: Request, e: Entry) {
    e.event.RequestApproved? && r.id == e.event.request && r.status == Approved && r.approver == Some(e.event.approver)
    && r.session == e.session && r.scope == e.event.scope && r.resource == e.event.resource
  }

  /** An approval tells of a grant that a human issued for what the request asked. */
  predicate ApprovalGrant(g: Grant, e: Entry) {
    e.event.RequestApproved? && g.id == e.event.grant && g.issuer == HUMAN_PREFIX + e.event.approver && g.initial == 5
    && g.session == e.session && g.scope == e.event.scope && g.resource == e.event.resource
  }

  ghost predicate ApprovalOk(s: Store, e: Entry) {
    && (exists i :: 0 <= i < |s.requests| && ApprovedRequest(s.requests[i], e))
    && (exists i :: 0 <= i < |s.grants| && ApprovalGrant(s.grants[i], e))
  }

  predicate SameKey(a: Request, b: Request) {
    a.session == b.session && a.scope == b.scope && a.resource == b.resource && a.tool == b.tool
  }

  predicate Unmentioned(log: seq<Entry>, id: nat) {
    Uses(log, id) == 0 && ApprovalsOf(log, id) == 0 && ApprovalsNaming(log, id) == 0
  }

  ghost predicate GrantsOk(s: Store) {
    && (forall i :: 0 <= i < |s.grants| ==> GrantOk(s.grants[i], s.log, s.nextId))
    && (forall i, j :: 0 <= i < j < |s.grants| ==> s.grants[i].id != s.grants[j].id)
    && (forall session :: Issued(s.grants, session) == Left(s.grants, session) + SessionUses(s.log, session))
  }

  ghost predicate RequestsOk(s: Store) {
    && (forall i :: 0 <= i < |s.requests| ==> RequestOk(s.requests[i], s.log, s.nextId))
    && (forall i, j :: 0 <= i < j < |s.requests| ==> s.requests[i].id != s.requests[j].id)
    && (forall i, j :: 0 <= i < j < |s.requests| && s.requests[i].status == Pending && s.requests[j].status == Pending
          ==> !SameKey(s.requests[i], s.requests[j]))
  }

  ghost predicate LogOk(s: Store) {
    && (forall k :: 0 <= k < |s.log| && s.log[k].event.RequestApproved? ==> ApprovalOk(s, s.log[k]))
    && (forall id :: id >= s.nextId ==> Unmentioned(s.log, id))
  }

  ghost predicate Inv(s: Store) {
    GrantsOk(s) && RequestsOk(s) && LogOk(s)
  }

  /** A store with seeded grants of the policy, and nothing else. */
  predicate Seeded(s: Store) {
    && s.requests == [] && s.log == []
    && (forall i :: 0 <= i < |s.grants| ==> s.grants[i].id < s.nextId && s.grants[i].remaining == s.grants[i].initial >= 0
                                            && !HumanIssued(s.grants[i]))
    && (forall i, j :: 0 <= i < j < |s.grants| ==> s.grants[i].id != s.grants[j].id)
  }

  lemma {:induction false} FreshSums(grants: seq<Grant>, session: string)
    requires forall i :: 0 <= i < |grants| ==> grants[i].remaining == grants[i].initial
    ensures Issued(grants, session) == Left(grants, session)
  {
    if grants != [] {
      FreshSums(grants[..|grants| - 1], session);
    }
  }

  lemma SeededInv(s: Store)
    requires Seeded(s)
    ensures Inv(s)
  {
    forall session ensures Issued(s.grants, session) == Left(s.grants, session) {
      FreshSums(s.grants, session);
    }
  }

  // ---- How a store evolves ----

  predicate GrantEvolves(a: Grant, b: Grant) {
    a.(remaining := b.remaining) == b && b.remaining <= a.remaining
  }

  /** The origin and the mark of a preflight request are never lost, and the first tool call is recorded once. */
  predicate RequestEvolves(a: Request, b: Request) {
    && a.id == b.id && a.session == b.session && a.user == b.user && SameKey(a, b) && a.createdAt == b.createdAt && a.sentAt == b.sentAt
    && a.traces == b.traces
    && (a.origin == PREFLIGHT_ORIGIN ==> b.origin == PREFLIGHT_ORIGIN)
    && (a.early ==> b.early)
    && (a.firstToolCallAt.Some? ==> b.firstToolCallAt == a.firstToolCallAt)
    && (a.predictionId.Some? ==> b.predictionId == a.predictionId)
    && (a.confidence.Some? ==> b.confidence == a.confidence)
    && (a.status == Approved ==> b.status == Approved && b.approver == a.approver)
  }

  ghost predicate Evolves(a: Store, b: Store) {
    && a.now <= b.now && a.nextId <= b.nextId && a.log <= b.log
    && |a.grants| <= |b.grants| && (forall i :: 0 <= i < |a.grants| ==> GrantEvolves(a.grants[i], b.grants[i]))
    && |a.requests| <= |b.requests| && (forall i :: 0 <= i < |a.requests| ==> RequestEvolves(a.requests[i], b.requests[i]))
  }

  lemma EvolvesTransitive(a: Store, b: Store, c: Store)
    requires Evolves(a, b) && Evolves(b, c)
    ensures Evolves(a, c)
  {
  }

  // ---- The operations keep the invariant ----

  /** An event that is neither a consumption nor an approval. */
  predicate Plain(e: Event) {
    !e.GrantConsumed? && !e.RequestApproved?
  }

  lemma LogKeepsInv(s: Store, session: string, e: Event)
    requires Inv(s) && Plain(e)
    ensures Inv(Log(s, session, e)) && Evolves(s, Log(s, session, e))
  {
    hide Uses, SessionUses, ApprovalsOf, ApprovalsNaming, Issued, Left;
    var t := Log(s, session, e);
    CountsAppend(s.log, Entry(session, e));
    forall k | 0 <= k < |t.log| && t.log[k].event.RequestApproved? ensures ApprovalOk(t, t.log[k]) {
      assert ApprovalOk(s, s.log[k]);
    }
    forall i | 0 <= i < |t.grants| ensures GrantOk(t.grants[i], t.log, t.nextId) {
      assert GrantOk(s.grants[i], s.log, s.nextId);
    }
    forall i | 0 <= i < |t.requests| ensures RequestOk(t.requests[i], t.log, t.nextId) {
      assert RequestOk(s.requests[i], s.log, s.nextId);
    }
    forall id | id >= t.nextId ensures Unmentioned(t.log, id) {
      assert Unmentioned(s.log, id);
    }
  }

  lemma InsertKeepsInv(s: Store, session: string, scope: string, resource: string, issuer: string, proofId: string, ttl: nat, count: nat)
    requires Inv(s) && !(HUMAN_PREFIX <= issuer)
    ensures var t := InsertGrant(s, session, scope, resource, issuer, proofId, ttl, count); Inv(t) && Evolves(s, t)
  {
    hide Uses, SessionUses, ApprovalsOf, ApprovalsNaming, Issued, Left;
    var t := InsertGrant(s, session, scope, resource, issuer, proofId, ttl, count);
    var g := t.grants[|s.grants|];
    forall x ensures Issued(t.grants, x) == Left(t.grants, x) + SessionUses(t.log, x) {
      SumsAppend(s.grants, g, x);
    }
    InsertedGrantsOk(s, t, g);
    forall k | 0 <= k < |t.log| && t.log[k].event.RequestApproved? ensures ApprovalOk(t, t.log[k]) {
      ApprovalSurvives(s, t, s.log[k]);
    }
  }

  /** A table with one more grant, under a fresh id. */
  lemma InsertedGrantsOk(s: Store, t: Store, g: Grant)
    requires GrantsOk(s) && LogOk(s) && t.grants == s.grants + [g] && t.log == s.log && t.nextId == s.nextId + 1
    requires g.id == s.nextId && g.initial == g.remaining >= 0 && !HumanIssued(g)
    ensures forall i :: 0 <= i < |t.grants| ==> GrantOk(t.grants[i], t.log, t.nextId)
    ensures forall i, j :: 0 <= i < j < |t.grants| ==> t.grants[i].id != t.grants[j].id
  {
    hide Uses, SessionUses, ApprovalsOf, ApprovalsNaming, Issued, Left;
    assert Unmentioned(s.log, s.nextId);
    forall i | 0 <= i < |t.grants| ensures GrantOk(t.grants[i], t.log, t.nextId) {
      if i < |s.grants| {
        assert GrantOk(s.grants[i], s.log, s.nextId);
      }
    }
    forall i, j | 0 <= i < j < |t.grants| ensures t.grants[i].id != t.grants[j].id {
      assert GrantOk(s.grants[i], s.log, s.nextId);
    }
  }

  /** An approval stays backed while the rows only evolve. */
  lemma ApprovalSurvives(s: Store, t: Store, e: Entry)
    requires ApprovalOk(s, e) && Evolves(s, t)
    ensures ApprovalOk(t, e)
  {
  }

  lemma IssueKeepsInv(s: Store, session: string, scope: string, resource: string, proofId: string, reason: string)
    requires Inv(s)
    ensures var t := IssueEphemeralGrant(s, session, scope, resource, proofId, reason); Inv(t) && Evolves(s, t)
  {
    hide Inv, Evolves;
    assert AUTO_ISSUER[0] != HUMAN_PREFIX[0];
    InsertKeepsInv(s, session, scope, resource, AUTO_ISSUER, proofId, 900, 1);
    var t := InsertGrant(s, session, scope, resource, AUTO_ISSUER, proofId, 900, 1);
    var e := GrantIssued(s.nextId, scope, resource, AUTO_ISSUER, proofId, reason, 900, 1);
    LogKeepsInv(t, session, e);
    EvolvesTransitive(s, t, Log(t, session, e));
  }

  /** One use: the chosen grant loses one, every other grant is untouched, and the event names it. */
  lemma ConsumeKeepsInv(s: Store, scopes: seq<ToolScopeRec>, session: string, tool: string, resource: string, decision: nat, tie: nat)
    requires Inv(s)
    ensures var (t, i) := Consume(s, scopes, session, tool, resource, decision, tie);
      && Inv(t) && Evolves(s, t)
      && (i.None? <==> !exists j :: 0 <= j < |s.grants| && Consumable(s.grants[j], scopes, session, tool, resource, s.now))
      && (i.None? ==> t == s)
      && (i.Some? ==>
            && Newest(s.grants, i.value, scopes, session, tool, resource, s.now)
            && t.grants[i.value] == s.grants[i.value].(remaining := s.grants[i.value].remaining - 1)
            && (forall j :: 0 <= j < |s.grants| && j != i.value ==> t.grants[j] == s.grants[j])
            && t.log == s.log + [Entry(session, GrantConsumed(s.grants[i.value].id, tool, resource, decision, s.grants[i.value].remaining - 1))])
  {
    hide Uses, SessionUses, ApprovalsOf, ApprovalsNaming, Issued, Left;
    var (t, r) := Consume(s, scopes, session, tool, resource, decision, tie);
    if r.Some? {
      var i := r.value;
      var e := t.log[|s.log|];
      CountsAppend(s.log, e);
      assert GrantOk(s.grants[i], s.log, s.nextId);
      forall x ensures Issued(t.grants, x) == Left(t.grants, x) + SessionUses(t.log, x) {
        SumsUpdate(s.grants, i, t.grants[i], x);
      }
      ConsumedCounts(s, t, i, e);
      assert Evolves(s, t);
      forall k | 0 <= k < |t.log| && t.log[k].event.RequestApproved? ensures ApprovalOk(t, t.log[k]) {
        ApprovalSurvives(s, t, s.log[k]);
      }
    }
  }

  lemma ConsumedCounts(s: Store, t: Store, i: nat, e: Entry)
    requires Inv(s) && i < |s.grants| && e.event.GrantConsumed? && e.event.grant == s.grants[i].id
    requires t == s.(grants := s.grants[i := s.grants[i].(remaining := s.grants[i].remaining - 1)], log := s.log + [e])
    requires s.grants[i].remaining > 0
    ensures forall j :: 0 <= j < |t.grants| ==> GrantOk(t.grants[j], t.log, t.nextId)
    ensures forall j :: 0 <= j < |t.requests| ==> RequestOk(t.requests[j], t.log, t.nextId)
    ensures forall id :: id >= t.nextId ==> Unmentioned(t.log, id)
  {
    hide Uses, SessionUses, ApprovalsOf, ApprovalsNaming, Issued, Left, ApprovalOk;
    CountsAppend(s.log, e);
    assert GrantOk(s.grants[i], s.log, s.nextId);
    forall j | 0 <= j < |t.grants| ensures GrantOk(t.grants[j], t.log, t.nextId) {
      assert GrantOk(s.grants[j], s.log, s.nextId);
      if j != i {
        assert s.grants[j].id != s.grants[i].id;
      }
    }
    forall j | 0 <= j < |t.requests| ensures RequestOk(t.requests[j], t.log, t.nextId) {
      assert RequestOk(s.requests[j], s.log, s.nextId);
    }
    forall id | id >= t.nextId ensures Unmentioned(t.log, id) {
      assert Unmentioned(s.log, id);
    }
  }

  /** Rewriting one request without touching its status keeps everything. */
  lemma RewriteKeepsInv(s: Store, i: nat, r: Request)
    requires Inv(s) && i < |s.requests| && RequestEvolves(s.requests[i], r)
    requires r.status == s.requests[i].status && r.approver == s.requests[i].approver
    ensures var t := s.(requests := s.requests[i := r]); Inv(t) && Evolves(s, t)
  {
    hide Uses, SessionUses, ApprovalsOf, ApprovalsNaming, Issued, Left;
    var t := s.(requests := s.requests[i := r]);
    forall j | 0 <= j < |t.requests| ensures RequestOk(t.requests[j], t.log, t.nextId) {
      assert RequestOk(s.requests[j], s.log, s.nextId);
    }
    forall k | 0 <= k < |t.log| && t.log[k].event.RequestApproved? ensures ApprovalOk(t, t.log[k]) {
      ApprovalSurvives(s, t, s.log[k]);
    }
  }

  lemma CreateRequestKeepsInv(s: Store, a: RequestArgs)
    requires Inv(s)
    ensures Inv(CreateRequest(s, a)) && Evolves(s, CreateRequest(s, a))
  {
    hide Uses, SessionUses, ApprovalsOf, ApprovalsNaming, Issued, Left;
    var p := PendingIndex(s.requests, a);
    if p.Some? {
      RewriteKeepsInv(s, p.value, Refreshed(s.requests[p.value], a, s.now));
    } else {
      var t := s.(requests := s.requests + [NewRequest(s.nextId, a, s.now)], nextId := s.nextId + 1);
      OpenKeepsInv(s, a);
      LogKeepsInv(t, a.session, RequestOpened(s.nextId, a));
      EvolvesTransitive(s, t, CreateRequest(s, a));
    }
  }

  lemma OpenKeepsInv(s: Store, a: RequestArgs)
    requires Inv(s) && PendingIndex(s.requests, a).None?
    ensures var t := s.(requests := s.requests + [NewRequest(s.nextId, a, s.now)], nextId := s.nextId + 1); Inv(t) && Evolves(s, t)
  {
    hide Uses, SessionUses, ApprovalsOf, ApprovalsNaming, Issued, Left, PendingIndex;
    var t := s.(requests := s.requests + [NewRequest(s.nextId, a, s.now)], nextId := s.nextId + 1);
    assert Unmentioned(s.log, s.nextId);
    forall j | 0 <= j < |t.requests| ensures RequestOk(t.requests[j], t.log, t.nextId) {
      if j < |s.requests| {
        assert RequestOk(s.requests[j], s.log, s.nextId);
      }
    }
    forall i, j | 0 <= i < j < |t.requests| ensures t.requests[i].id != t.requests[j].id {
      assert RequestOk(s.requests[i], s.log, s.nextId);
    }
    forall i | 0 <= i < |t.grants| ensures GrantOk(t.grants[i], t.log, t.nextId) {
      assert GrantOk(s.grants[i], s.log, s.nextId);
    }
    forall k | 0 <= k < |t.log| && t.log[k].event.RequestApproved? ensures ApprovalOk(t, t.log[k]) {
      ApprovalSurvives(s, t, s.log[k]);
    }
  }

  lemma SeenKeepsInv(s: Store, session: string, tool: string, resource: string)
    requires Inv(s)
    ensures Inv(MarkToolCallSeen(s, session, tool, resource)) && Evolves(s, MarkToolCallSeen(s, session, tool, resource))
  {
    hide Uses, SessionUses, ApprovalsOf, ApprovalsNaming, Issued, Left;
    var p := EarliestUnseen(s.requests, session, tool, resource);
    if p.Some? {
      var r := s.requests[p.value];
      var t := s.(requests := s.requests[p.value := r.(firstToolCallAt := Some(s.now))]);
      RewriteKeepsInv(s, p.value, r.(firstToolCallAt := Some(s.now)));
      LogKeepsInv(t, session, ToolCallObserved(r.id, tool, resource, r.origin, r.early));
      EvolvesTransitive(s, t, MarkToolCallSeen(s, session, tool, resource));
    }
  }

  /** The step of an approval that does something. */
  ghost predicate ApprovalStep(s: Store, t: Store, i: nat, approver: string, g: Grant, e: Entry) {
    && i < |s.requests| && s.requests[i].status == Pending
    && t.requests == s.requests[i := s.requests[i].(status := Approved, approver := Some(approver))]
    && t.grants == s.grants + [g] && t.log == s.log + [e] && t.nextId == s.nextId + 1 && t.now == s.now
    && g.id == s.nextId && g.initial == 5 && g.remaining == 5 && g.issuer == HUMAN_PREFIX + approver
    && g.session == s.requests[i].session && g.scope == s.requests[i].scope && g.resource == s.requests[i].resource
    && e == Entry(g.session, RequestApproved(s.requests[i].id, approver, g.id, g.scope, g.resource))
  }

  lemma ApprovalRequestsOk(s: Store, t: Store, i: nat, approver: string, g: Grant, e: Entry)
    requires Inv(s) && ApprovalStep(s, t, i, approver, g, e)
    ensures RequestsOk(t)
  {
  }

  lemma ApprovalGrantsOk(s: Store, t: Store, i: nat, approver: string, g: Grant, e: Entry)
    requires Inv(s) && ApprovalStep(s, t, i, approver, g, e)
    ensures GrantsOk(t)
  {
    hide Uses, SessionUses, ApprovalsOf, ApprovalsNaming, Issued, Left, ApprovalOk;
    CountsAppend(s.log, e);
    assert Unmentioned(s.log, s.nextId);
    forall j | 0 <= j < |t.grants| ensures GrantOk(t.grants[j], t.log, t.nextId) {
      if j < |s.grants| {
        assert GrantOk(s.grants[j], s.log, s.nextId);
      }
    }
    forall j, k | 0 <= j < k < |t.grants| ensures t.grants[j].id != t.grants[k].id {
      assert GrantOk(s.grants[j], s.log, s.nextId);
    }
    forall x ensures Issued(t.grants, x) == Left(t.grants, x) + SessionUses(t.log, x) {
      SumsAppend(s.grants, g, x);
    }
  }

  lemma ApprovalLogOk(s: Store, t: Store, i: nat, approver: string, g: Grant, e: Entry)
    requires Inv(s) && ApprovalStep(s, t, i, approver, g, e)
    ensures LogOk(t) && Evolves(s, t)
  {
    hide Uses, SessionUses, ApprovalsOf, ApprovalsNaming, Issued, Left;
    CountsAppend(s.log, e);
    assert RequestOk(s.requests[i], s.log, s.nextId);
    assert Evolves(s, t);
    forall k | 0 <= k < |t.log| && t.log[k].event.RequestApproved? ensures ApprovalOk(t, t.log[k]) {
      if k < |s.log| {
        ApprovalSurvives(s, t, s.log[k]);
      } else {
        assert ApprovedRequest(t.requests[i], e) && ApprovalGrant(t.grants[|s.grants|], e);
      }
    }
    forall id | id >= t.nextId ensures Unmentioned(t.log, id) {
      assert Unmentioned(s.log, id);
    }
  }

  lemma ApproveKeepsInv(s: Store, id: nat, approver: string)
    requires Inv(s) && ApproveRequest(s, id, approver).Ok?
    ensures Inv(ApproveRequest(s, id, approver).value) && Evolves(s, ApproveRequest(s, id, approver).value)
  {
    hide RequestsOk, GrantsOk, LogOk;
    var i := RequestIndex(s.requests, id).value;
    var t := ApproveRequest(s, id, approver).value;
    if s.requests[i].status == Pending {
      var g, e := t.grants[|s.grants|], t.log[|s.log|];
      ApprovalRequestsOk(s, t, i, approver, g, e);
      ApprovalGrantsOk(s, t, i, approver, g, e);
      ApprovalLogOk(s, t, i, approver, g, e);
    }
  }

  // ---- Runs ----

  datatype Step =
    | IssueStep(session: string, scope: string, resource: string, proofId: string, reason: string)
    | ConsumeStep(session: string, tool: string, resource: string, decision: nat, tie: nat)
    | RequestStep(args: RequestArgs)
    | ApproveStep(id: nat, approver: string)
    | SeenStep(session: string, tool: string, resource: string)
    | LogStep(session: string, event: Event)
    | TickStep(seconds: nat)

  function Apply(s: Store, scopes: seq<ToolScopeRec>, step: Step): Store {
    match step
    case IssueStep(session, scope, resource, proofId, reason) => IssueEphemeralGrant(s, session, scope, resource, proofId, reason)
    case ConsumeStep(session, tool, resource, decision, tie) => Consume(s, scopes, session, tool, resource, decision, tie).0
    case RequestStep(args) => CreateRequest(s, args)
    case ApproveStep(id, approver) => (match ApproveRequest(s, id, approver) case Ok(t) => t case Err(_) => s)
    case SeenStep(session, tool, resource) => MarkToolCallSeen(s, session, tool, resource)
    case LogStep(session, event) => if Plain(event) then Log(s, session, event) else s
    case TickStep(seconds) => s.(now := s.now + seconds)
  }

  function Run(s: Store, scopes: seq<ToolScopeRec>, steps: seq<Step>): Store {
    if steps == [] then s else Apply(Run(s, scopes, steps[..|steps| - 1]), scopes, steps[|steps| - 1])
  }

  lemma TickKeepsInv(s: Store, seconds: nat)
    requires Inv(s)
    ensures Inv(s.(now := s.now + seconds)) && Evolves(s, s.(now := s.now + seconds))
  {
  }

  /** Rows of other tables may take fresh ids. */
  lemma FreshIdKeepsInv(s: Store)
    requires Inv(s)
    ensures Inv(s.(nextId := s.nextId + 1)) && Evolves(s, s.(nextId := s.nextId + 1))
  {
  }

  lemma EvolvesReflexive(s: Store)
    ensures Evolves(s, s)
  {
  }

  lemma StepKeepsInv(s: Store, scopes: seq<ToolScopeRec>, step: Step)
    requires Inv(s)
    ensures Inv(Apply(s, scopes, step)) && Evolves(s, Apply(s, scopes, step))
  {
    hide Inv, Evolves, IssueEphemeralGrant, Consume, CreateRequest, ApproveRequest, MarkToolCallSeen, Log;
    EvolvesReflexive(s);
    match step {
      case IssueStep(session, scope, resource, proofId, reason) => IssueKeepsInv(s, session, scope, resource, proofId, reason);
      case ConsumeStep(session, tool, resource, decision, tie) => ConsumeKeepsInv(s, scopes, session, tool, resource, decision, tie);
      case RequestStep(args) => CreateRequestKeepsInv(s, args);
      case ApproveStep(id, approver) => if ApproveRequest(s, id, approver).Ok? { ApproveKeepsInv(s, id, approver); }
      case SeenStep(session, tool, resource) => SeenKeepsInv(s, session, tool, resource);
      case LogStep(session, event) => if Plain(event) { LogKeepsInv(s, session, event); }
      case TickStep(seconds) => TickKeepsInv(s, seconds);
    }
  }

  /** Every run keeps the invariant, and rows only evolve. */
  lemma {:induction false} RunKeepsInv(s: Store, scopes: seq<ToolScopeRec>, steps: seq<Step>)
    requires Inv(s)
    ensures Inv(Run(s, scopes, steps)) && Evolves(s, Run(s, scopes, steps))
  {
    hide Inv, Evolves, Apply;
    EvolvesReflexive(s);
    if steps != [] {
      var before := steps[..|steps| - 1];
      RunKeepsInv(s, scopes, before);
      StepKeepsInv(Run(s, scopes, before), scopes, steps[|steps| - 1]);
      EvolvesTransitive(s, Run(s, scopes, before), Run(s, scopes, steps));
    }
  }

  // ---- What the invariant means ----

  /** Conservation: every grant started with what it has left plus its logged uses. */
  lemma GrantsConserved(s: Store, i: nat)
    requires Inv(s) && i < |s.grants|
    ensures s.grants[i].initial == s.grants[i].remaining + Uses(s.log, s.grants[i].id) && s.grants[i].remaining >= 0
  {
  }

  /** A session never logs more consumptions than its grants were issued with. */
  lemma SessionUsesBounded(s: Store, session: string)
    requires Inv(s)
    ensures SessionUses(s.log, session) <= Issued(s.grants, session)
  {
    forall i | 0 <= i < |s.grants| ensures s.grants[i].remaining >= 0 {
      assert GrantOk(s.grants[i], s.log, s.nextId);
    }
    LeftIsNatural(s.grants, session);
  }

  lemma {:induction false} ApprovalCounted(log: seq<Entry>, id: nat)
    ensures ApprovalsOf(log, id) > 0 <==> exists k :: 0 <= k < |log| && log[k].event.RequestApproved? && log[k].event.request == id
    ensures ApprovalsNaming(log, id) > 0 <==> exists k :: 0 <= k < |log| && log[k].event.RequestApproved? && log[k].event.grant == id
  {
    if log != [] {
      var n := |log| - 1;
      ApprovalCounted(log[..n], id);
      assert log == log[..n] + [log[n]];
    }
  }

  lemma {:induction false} ApprovalsCountedTwice(log: seq<Entry>, k: nat, m: nat)
    requires k < m < |log| && log[k].event.RequestApproved? && log[m].event.RequestApproved?
    ensures log[k].event.request == log[m].event.request ==> ApprovalsOf(log, log[k].event.request) >= 2
    ensures log[k].event.grant == log[m].event.grant ==> ApprovalsNaming(log, log[k].event.grant) >= 2
  {
    var n := |log| - 1;
    if m < n {
      ApprovalsCountedTwice(log[..n], k, m);
    } else {
      assert log[..n][k] == log[k];
      ApprovalCounted(log[..n], log[k].event.request);
      ApprovalCounted(log[..n], log[k].event.grant);
    }
  }

  /** A request is approved exactly when one approval of it is logged. */
  lemma ApprovedIffLogged(s: Store, i: nat)
    requires Inv(s) && i < |s.requests|
    ensures s.requests[i].status == Approved
       <==> exists k :: 0 <= k < |s.log| && s.log[k].event.RequestApproved? && s.log[k].event.request == s.requests[i].id
  {
    assert RequestOk(s.requests[i], s.log, s.nextId);
    ApprovalCounted(s.log, s.requests[i].id);
  }

  /** Human grants are exactly those that an approval names. */
  lemma HumanIffApproved(s: Store, i: nat)
    requires Inv(s) && i < |s.grants|
    ensures HumanIssued(s.grants[i])
       <==> exists k :: 0 <= k < |s.log| && s.log[k].event.RequestApproved? && s.log[k].event.grant == s.grants[i].id
  {
    assert GrantOk(s.grants[i], s.log, s.nextId);
    ApprovalCounted(s.log, s.grants[i].id);
  }

  /**
   * Two approvals are about two requests and name two grants; with the two lemmas above, approved requests and human
   * grants correspond one to one, however often each approval was repeated.
   */
  lemma ApprovalsAreOneToOne(s: Store, k: nat, m: nat)
    requires Inv(s) && k < m < |s.log| && s.log[k].event.RequestApproved? && s.log[m].event.RequestApproved?
    ensures s.log[k].event.request != s.log[m].event.request && s.log[k].event.grant != s.log[m].event.grant
    ensures ApprovalOk(s, s.log[k]) && ApprovalOk(s, s.log[m])
  {
    ApprovalsCountedTwice(s.log, k, m);
    assert ApprovalOk(s, s.log[k]);
    var i :| 0 <= i < |s.requests| && ApprovedRequest(s.requests[i], s.log[k]);
    assert RequestOk(s.requests[i], s.log, s.nextId);
    var j :| 0 <= j < |s.grants| && ApprovalGrant(s.grants[j], s.log[k]);
    assert GrantOk(s.grants[j], s.log, s.nextId);
  }

  /** Approving again, by anyone, changes nothing. */
  lemma ApprovingAgainIsIdle(s: Store, id: nat, first: string, scopes: seq<ToolScopeRec>, between: seq<Step>, second: string)
    requires Inv(s) && ApproveRequest(s, id, first).Ok?
    ensures var t := Run(ApproveRequest(s, id, first).value, scopes, between); ApproveRequest(t, id, second) == Ok(t)
  {
    var u := ApproveRequest(s, id, first).value;
    var i := RequestIndex(s.requests, id).value;
    ApproveKeepsInv(s, id, first);
    RunKeepsInv(u, scopes, between);
    var t := Run(u, scopes, between);
    assert u.requests[i].id == id && u.requests[i].status == Approved;
    assert RequestEvolves(u.requests[i], t.requests[i]);
    var k := RequestIndex(t.requests, id).value;
    assert k == i;
  }

  /** At most one request is pending for a session, scope, resource and tool. */
  lemma OnePendingRequest(s: Store, i: nat, j: nat)
    requires Inv(s) && i < |s.requests| && j < |s.requests|
    requires s.requests[i].status == Pending && s.requests[j].status == Pending && SameKey(s.requests[i], s.requests[j])
    ensures i == j
  {
  }
}
