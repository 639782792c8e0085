/**
 * What stands behind an execution, over every run of the gateway: its decision with the same check and proof, a grant
 * that covers the tool, and, where a credential is bound to the call, the injection of that credential.
 */
module GatewayLeases {
  import opened Wrappers
  import opened Json
  import opened PolicyTable
  import opened PolicyCompile
  import opened GrantLifecycle
  import opened GraphFallback
  import opened GatewayContext
  import opened Ledger
  import opened Gateway
  import opened GatewaySafety
  import LedgerInvariant
  import Checks = AuthorizationChecks
  import Broker = CredentialBroker
  import Life = LeaseLife

  // ---- The protocol in the log ----

  /** The entry records the executable decision of the deed, with its check and its proof. */
  predicate RecordsAuth(e: Entry, x: Deed, check: nat, proof: string) {
    RecordsDecision(e, x) && e.event.check == check && e.event.proofHash == proof
  }

  /** The grant has the id, belongs to the session and the resource, and its scope is one of the tool's. */
  predicate Covers(cfg: Config, g: Grant, id: nat, x: Deed) {
    && g.id == id && g.session == x.session && g.resource == x.resource
    && ToolHasScope(cfg.catalog.toolScopes, x.tool, g.scope)
  }

  predicate ToolHasScope(rows: seq<ToolScopeRec>, tool: string, scope: string) {
    exists t :: t in rows && t.tool == tool && t.scope == scope
  }

  /** The credential of the row is for this call. */
  predicate Binds(b: BindingRec, x: Deed, scope: string) {
    b.tool == x.tool && b.scope == scope && b.resource == x.resource
  }

  predicate CredentialBound(cfg: Config, x: Deed, scope: string) {
    exists n :: 0 <= n < |cfg.bindings| && Binds(cfg.bindings[n], x, scope)
  }

  /** The gateway injected the credential for this decision. */
  predicate Injects(e: Entry, x: Deed) {
    && e.session == x.session && e.event.Other? && e.event.eventType == "credential_injected_by_gateway"
    && e.event.body.Obj? && Field("decision_id", Num(x.decision)) in e.event.body.fields
  }

  /** Between two positions the credential of the call, if one is bound, was injected. */
  ghost predicate Leased(cfg: Config, log: seq<Entry>, j: nat, k: nat, x: Deed, scope: string) {
    CredentialBound(cfg, x, scope) ==> exists m :: j < m < k && m < |log| && Injects(log[m], x)
  }

  /** Before position `k`: the decision, then the consumption of a covering grant, then the lease. */
  ghost predicate Prepared(cfg: Config, s: Store, k: nat, x: Deed, check: nat, proof: string) {
    exists i: nat, j: nat, g: nat :: PreparedBy(cfg, s, k, x, check, proof, i, j, g)
  }

  ghost predicate PreparedBy(cfg: Config, s: Store, k: nat, x: Deed, check: nat, proof: string, i: nat, j: nat, g: nat) {
    && TakenBy(cfg, s, k, x, check, proof, i, j, g) && Leased(cfg, s.log, j, k, x, s.grants[g].scope)
  }

  /** Before position `k`: the decision, then the consumption of a covering grant. */
  predicate TakenBy(cfg: Config, s: Store, k: nat, x: Deed, check: nat, proof: string, i: nat, j: nat, g: nat) {
    && i < j < k && j < |s.log| && g < |s.grants|
    && RecordsAuth(s.log[i], x, check, proof) && ConsumesFor(s.log[j], x) && Covers(cfg, s.grants[g], s.log[j].event.grant, x)
  }

  ghost predicate ExecutedProperly(cfg: Config, s: Store, k: nat)
    requires k < |s.log|
  {
    var e := s.log[k];
    e.event.CallExecuted? ==> Prepared(cfg, s, k, DeedOf(e), e.event.check, e.event.proofId)
  }

  ghost predicate AllProper(cfg: Config, s: Store) {
    forall k :: 0 <= k < |s.log| ==> ExecutedProperly(cfg, s, k)
  }

  // ---- The calls under way ----

  predicate Records(s: Store, d: nat, c: Call, i: nat) {
    i < |s.log| && RecordsAuth(s.log[i], CallDeed(d, c), c.auth.check, c.auth.proofHash)
  }

  /** The call holds the covering grant that it consumed. */
  ghost predicate Holds(cfg: Config, s: Store, d: nat, c: Call, id: nat) {
    exists i: nat, j: nat, g: nat :: HeldBy(cfg, s, d, c, id, i, j, g)
  }

  predicate HeldBy(cfg: Config, s: Store, d: nat, c: Call, id: nat, i: nat, j: nat, g: nat) {
    TakenBy(cfg, s, |s.log|, CallDeed(d, c), c.auth.check, c.auth.proofHash, i, j, g) && s.log[j].event.grant == id
  }

  ghost predicate CallReady(cfg: Config, s: Store, d: nat, c: Call) {
    && (exists i: nat :: Records(s, d, c, i))
    && Checks.PassesAssertExecutable(c.auth.verdict, c.auth.state)
    && (c.grant.Some? ==> Holds(cfg, s, d, c, c.grant.value))
  }

  ghost predicate CallsReady(cfg: Config, s: Store, calls: map<nat, Call>) {
    forall d :: d in calls ==> CallReady(cfg, s, d, calls[d])
  }

  ghost predicate InOrder(cfg: Config, w: World) {
    AllProper(cfg, w.store) && CallsReady(cfg, w.store, w.calls)
  }

  // ---- Growth disturbs nothing ----

  /** The log and the grants only grow, and grants keep all but their count. */
  ghost predicate Extends(s: Store, t: Store) {
    && s.log <= t.log && |s.grants| <= |t.grants|
    && forall g :: 0 <= g < |s.grants| ==> LedgerInvariant.GrantEvolves(s.grants[g], t.grants[g])
  }

  lemma TakenSurvives(cfg: Config, s: Store, t: Store, k: nat, x: Deed, check: nat, proof: string, i: nat, j: nat, g: nat)
    requires Extends(s, t) && TakenBy(cfg, s, k, x, check, proof, i, j, g)
    ensures TakenBy(cfg, t, k, x, check, proof, i, j, g) && t.grants[g].scope == s.grants[g].scope
  {
    hide ToolHasScope;
    assert s.log[i] == t.log[i] && s.log[j] == t.log[j];
  }

  lemma ProperSurvives(cfg: Config, s: Store, t: Store, k: nat)
    requires Extends(s, t) && k < |s.log| && ExecutedProperly(cfg, s, k)
    ensures ExecutedProperly(cfg, t, k)
  {
    hide Covers, RecordsAuth, CredentialBound;
    assert t.log[k] == s.log[k];
    var e := s.log[k];
    if e.event.CallExecuted? {
      var x := DeedOf(e);
      var i: nat, j: nat, g: nat :| PreparedBy(cfg, s, k, x, e.event.check, e.event.proofId, i, j, g);
      TakenSurvives(cfg, s, t, k, x, e.event.check, e.event.proofId, i, j, g);
      LeasedSurvives(cfg, s.log, t.log, j, k, x, s.grants[g].scope);
      assert PreparedBy(cfg, t, k, x, e.event.check, e.event.proofId, i, j, g);
    }
  }

  lemma LeasedSurvives(cfg: Config, log: seq<Entry>, more: seq<Entry>, j: nat, k: nat, x: Deed, scope: string)
    requires log <= more && k <= |log| && Leased(cfg, log, j, k, x, scope)
    ensures Leased(cfg, more, j, k, x, scope)
  {
    hide CredentialBound;
    if CredentialBound(cfg, x, scope) {
      var m :| j < m < k && m < |log| && Injects(log[m], x);
      assert more[m] == log[m];
    }
  }

  lemma ReadySurvives(cfg: Config, s: Store, t: Store, d: nat, c: Call)
    requires Extends(s, t) && CallReady(cfg, s, d, c)
    ensures CallReady(cfg, t, d, c)
  {
    hide Covers, RecordsAuth, Checks.PassesAssertExecutable;
    var i: nat :| Records(s, d, c, i);
    assert Records(t, d, c, i);
    if c.grant.Some? {
      var a: nat, j: nat, g: nat :| HeldBy(cfg, s, d, c, c.grant.value, a, j, g);
      TakenSurvives(cfg, s, t, |s.log|, CallDeed(d, c), c.auth.check, c.auth.proofHash, a, j, g);
      TakenLater(cfg, t, |s.log|, |t.log|, CallDeed(d, c), c.auth.check, c.auth.proofHash, a, j, g);
      assert t.log[j] == s.log[j];
      assert HeldBy(cfg, t, d, c, c.grant.value, a, j, g);
    }
  }

  lemma TakenLater(cfg: Config, s: Store, k: nat, n: nat, x: Deed, check: nat, proof: string, i: nat, j: nat, g: nat)
    requires k <= n && TakenBy(cfg, s, k, x, check, proof, i, j, g)
    ensures TakenBy(cfg, s, n, x, check, proof, i, j, g)
  {
    hide Covers, RecordsAuth;
  }

  lemma QuietExtends(s: Store, t: Store)
    requires LedgerInvariant.Inv(s) && QuietGrowth(s, t)
    ensures Extends(s, t) && forall k :: |s.log| <= k < |t.log| ==> !t.log[k].event.CallExecuted?
  {
  }

  /** Growth without executions keeps everything in order. */
  lemma GrowthKeepsOrder(cfg: Config, s: Store, t: Store, calls: map<nat, Call>)
    requires AllProper(cfg, s) && CallsReady(cfg, s, calls) && Extends(s, t)
    requires forall k :: |s.log| <= k < |t.log| ==> !t.log[k].event.CallExecuted?
    ensures AllProper(cfg, t) && CallsReady(cfg, t, calls)
  {
    hide CallReady, Prepared, Extends;
    ExtendsLog(s, t);
    forall k | 0 <= k < |t.log| ensures ExecutedProperly(cfg, t, k) {
      if k < |s.log| {
        ProperSurvives(cfg, s, t, k);
      }
    }
    forall d | d in calls ensures CallReady(cfg, t, d, calls[d]) {
      ReadySurvives(cfg, s, t, d, calls[d]);
    }
  }

  lemma ExtendsLog(s: Store, t: Store)
    requires Extends(s, t)
    ensures s.log <= t.log
  {
  }

  lemma QuietKeepsOrder(cfg: Config, w: World, t: World)
    requires InOrder(cfg, w) && LedgerInvariant.Inv(w.store) && QuietGrowth(w.store, t.store) && t.calls == w.calls
    ensures InOrder(cfg, t)
  {
    hide AllProper, CallsReady, Extends, QuietGrowth, LedgerInvariant.Inv;
    QuietExtends(w.store, t.store);
    GrowthKeepsOrder(cfg, w.store, t.store, w.calls);
  }

  // ---- Beginning a call ----

  /** The record of an answer, with its check and its proof. */
  ghost predicate AnswerRecorded(log: seq<Entry>, q: Question, auth: Auth) {
    exists i :: 0 <= i < |log|
      && RecordsAuth(log[i], Deed(q.session, q.tool, q.resource, auth.decision), auth.check, auth.proofHash)
  }

  /** If the answer is executable, it is on record. */
  ghost predicate AnswerOnRecord(log: seq<Entry>, q: Question, auth: Option<Auth>) {
    hide AnswerRecorded;
    auth.Some? && Executable(auth.value.verdict) ==> AnswerRecorded(log, q, auth.value)
  }

  lemma RecordedAnswer(cfg: Config, w: World, q: Question, p: Picture, ctx: Context, id: nat, snapshot: nat)
    requires id in w.checks.decisions && id in w.checks.checks
    ensures var (w1, auth) := Recorded(cfg, w, q, p, ctx, id, snapshot); Executable(auth.verdict) ==> AnswerRecorded(w1.store.log, q, auth)
  {
    hide FollowUp, StateText;
    var d, c, decision := w.checks.decisions[id], w.checks.checks[id], w.store.nextId;
    var e := DecisionRecorded(decision, id, StateText(c.state), d.decision, q.tool, q.resource, snapshot, d.proofHash);
    var recorded := Log(w.store.(nextId := decision + 1), q.session, e);
    FollowUpIsQuiet(cfg, w.(store := recorded), q, p, ctx, d);
    var w1 := FollowUp(cfg, w.(store := recorded), q, p, ctx, d);
    assert w1.store.log[..|recorded.log|][|w.store.log|] == recorded.log[|w.store.log|];
  }

  lemma DecidedAnswer(cfg: Config, w: World, s: SessionRec, q: Question, p: Picture)
    ensures var (w1, auth) := Decided(cfg, w, s, q, p); AnswerOnRecord(w1.store.log, q, auth)
  {
    hide Recorded, StateText, Evaluated, QuestionContext, IdempotencyKey, AnswerRecorded;
    var ctx := QuestionContext(cfg, w, s, q, p);
    var bumped := w.store.(nextId := w.store.nextId + 1);
    var asked := Log(bumped, q.session, Requested(q, w.store.nextId, IdempotencyKey(cfg.sha, ctx)));
    var (checks, id) := Evaluated(cfg, w.checks, q, ctx);
    if id in checks.decisions && id in checks.checks {
      RecordedAnswer(cfg, w.(store := asked, checks := checks), q, p, ctx, id, w.store.nextId);
    }
  }

  lemma AuthorizedAnswer(cfg: Config, w: World, q: Question)
    ensures var (w1, auth) := RunAuthorize(cfg, w, q); AnswerOnRecord(w1.store.log, q, auth)
  {
    hide Decided, Look, GatewaySafety.Inv, FindSession, AnswerRecorded, Gateway.Prepared;
    var s := FindSession(cfg.catalog, q.session);
    if s.Some? && q.agentActive && s.value.agent == q.agent {
      var ready := Gateway.Prepared(cfg, w, s.value);
      var look := Look(ready.graph, q.session, q.tool, q.resource, ready.store.now, cfg.parse);
      if look.Ok? {
        DecidedAnswer(cfg, ready, s.value, q, look.value);
      }
    }
  }

  lemma AdmittedReady(cfg: Config, s: Store, calls: map<nat, Call>, q: Question, auth: Auth)
    requires CallsReady(cfg, s, calls) && AnswerRecorded(s.log, q, auth) && Checks.PassesAssertExecutable(auth.verdict, auth.state)
    ensures CallsReady(cfg, s, calls[auth.decision := Call(q.session, q.tool, q.resource, auth, None)])
  {
    hide RecordsAuth, Holds, Checks.PassesAssertExecutable;
    var d, c := auth.decision, Call(q.session, q.tool, q.resource, auth, None);
    var i :| 0 <= i < |s.log| && RecordsAuth(s.log[i], Deed(q.session, q.tool, q.resource, auth.decision), auth.check, auth.proofHash);
    assert Records(s, d, c, i);
  }

  lemma BeginKeepsOrder(cfg: Config, w: World, q: Question)
    requires GatewaySafety.Inv(w) && InOrder(cfg, w)
    ensures InOrder(cfg, BeginCall(cfg, w, q).0)
  {
    hide AllProper, CallsReady, QuietGrowth, LedgerInvariant.Inv, LedgerInvariant.Evolves, Tracked, Checks.Inv, Checks.Evolves,
         RunAuthorize, Announced, DenialReturned, AnswerRecorded, DecidedBefore, Checks.PassesAssertExecutable, InOrder;
    var w0 := Announced(w, q);
    AnnouncedIsQuiet(w, q);
    QuietKeepsOrder(cfg, w, w0);
    QuietKeepsLedger(w.store, w0.store);
    var (w1, auth) := RunAuthorize(cfg, w0, q);
    AuthorizeIsQuiet(cfg, w0, q);
    QuietKeepsOrder(cfg, w0, w1);
    QuietKeepsLedger(w0.store, w1.store);
    AuthorizedAnswer(cfg, w0, q);
    if auth.Some? && Executable(auth.value.verdict) {
      OrderParts(cfg, w1);
      AdmittedReady(cfg, w1.store, w1.calls, q, auth.value);
      OrderOf(cfg, BeginCall(cfg, w, q).0);
    } else if auth.Some? {
      DenialIsQuiet(q, auth.value);
      LogIsQuiet(w1.store, q.session, DenialReturned(q, auth.value));
      QuietKeepsOrder(cfg, w1, BeginCall(cfg, w, q).0);
    }
  }

  lemma OrderParts(cfg: Config, w: World)
    requires InOrder(cfg, w)
    ensures AllProper(cfg, w.store) && CallsReady(cfg, w.store, w.calls)
  {
  }

  lemma OrderOf(cfg: Config, w: World)
    requires AllProper(cfg, w.store) && CallsReady(cfg, w.store, w.calls)
    ensures InOrder(cfg, w)
  {
  }

  // ---- Consuming ----

  /** A call that consumes holds the grant that the log names. */
  lemma ConsumptionHolds(cfg: Config, s: Store, t: Store, d: nat, c: Call, g: nat)
    requires CallReady(cfg, s, d, c) && Extends(s, t) && |t.log| == |s.log| + 1
    requires g < |t.grants| && ConsumesFor(t.log[|s.log|], CallDeed(d, c)) && t.log[|s.log|].event.grant == t.grants[g].id
    requires Covers(cfg, t.grants[g], t.grants[g].id, CallDeed(d, c))
    ensures CallReady(cfg, t, d, c.(grant := Some(t.grants[g].id)))
  {
    hide RecordsAuth, Covers, Checks.PassesAssertExecutable;
    var i: nat :| Records(s, d, c, i);
    assert t.log[i] == s.log[i];
    var held := c.(grant := Some(t.grants[g].id));
    assert Records(t, d, held, i);
    assert HeldBy(cfg, t, d, held, t.grants[g].id, i, |s.log|, g);
  }

  lemma ConsumeKeepsOrder(cfg: Config, w: World, d: nat, tie: nat)
    requires GatewaySafety.Inv(w) && InOrder(cfg, w)
    ensures InOrder(cfg, ConsumeForCall(cfg, w, d, tie))
  {
    hide AllProper, CallReady, LedgerInvariant.Inv, LedgerInvariant.Evolves, Tracked, Checks.Inv, Newest, Consumable, Extends;
    if d in w.calls && w.calls[d].grant.None? {
      var c := w.calls[d];
      var (store, g) := Consume(w.store, cfg.catalog.toolScopes, c.session, c.tool, c.resource, d, tie);
      if g.Some? {
        ConsumeExtends(cfg, w.store, c, d, tie);
        GrowthKeepsOrder(cfg, w.store, store, w.calls);
        assert CallReady(cfg, w.store, d, c);
        ConsumptionHolds(cfg, w.store, store, d, c, g.value);
      }
    }
  }

  lemma ConsumeExtends(cfg: Config, s: Store, c: Call, d: nat, tie: nat)
    ensures var (t, g) := Consume(s, cfg.catalog.toolScopes, c.session, c.tool, c.resource, d, tie);
      g.Some? ==>
        && Extends(s, t) && |t.log| == |s.log| + 1 && g.value < |t.grants|
        && ConsumesFor(t.log[|s.log|], Deed(c.session, c.tool, c.resource, d)) && t.log[|s.log|].event.grant == t.grants[g.value].id
        && Covers(cfg, t.grants[g.value], t.grants[g.value].id, Deed(c.session, c.tool, c.resource, d))
  {
  }

  // ---- Executing ----

  lemma {:induction false} LogAllAdds(s: Store, session: string, events: seq<Event>)
    ensures var t := LogAll(s, session, events);
      && t == s.(log := t.log) && s.log <= t.log && |t.log| == |s.log| + |events|
      && forall n :: 0 <= n < |events| ==> t.log[|s.log| + n] == Entry(session, events[n])
  {
    if events != [] {
      LogAllAdds(s, session, events[..|events| - 1]);
    }
  }

  /** The grant of a call has one scope. */
  lemma ScopeOfGrant(s: Store, g: nat)
    requires LedgerInvariant.Inv(s) && g < |s.grants|
    ensures GrantScope(s.grants, s.grants[g].id) == s.grants[g].scope
  {
    hide GrantScope;
    var scope := GrantScope(s.grants, s.grants[g].id);
    assert s.grants[g] in s.grants;
    var r :| r in s.grants && r.id == s.grants[g].id && r.scope == scope;
  }

  lemma BoundIff(cfg: Config, c: Call, scope: string)
    ensures CredentialBound(cfg, CallDeed(c.auth.decision, c), scope) <==> FindBinding(cfg.bindings, c.tool, scope, c.resource).Some?
  {
    var x := CallDeed(c.auth.decision, c);
    if CredentialBound(cfg, x, scope) {
      var n :| 0 <= n < |cfg.bindings| && Binds(cfg.bindings[n], x, scope);
      assert cfg.bindings[n] in cfg.bindings;
    }
  }

  /** A trail with a used lease ends with the injection. */
  lemma UsedIsInjected(cfg: Config, c: Call, scope: string, o: Outside)
    requires LeaseUsed(cfg, c, scope, o) == Some(true)
    ensures var trail := LeaseTrail(cfg, c, scope, o);
      trail != [] && Injects(Entry(c.session, trail[|trail| - 1]), CallDeed(c.auth.decision, c))
  {
    hide FindBinding, Broker.Mintable, LeaseRequest;
    var e := LeaseEvent(c, "credential_injected_by_gateway");
    assert e.body.fields[0] == Field("decision_id", Num(c.auth.decision));
  }

  /** The execution of a ready call, after its trail, is a proper one. */
  lemma ExecutionProper(cfg: Config, s: Store, leased: Store, t: Store, d: nat, c: Call, scope: string, o: Outside, payload: Value)
    requires CallReady(cfg, s, d, c) && c.grant.Some? && c.auth.decision == d && LedgerInvariant.Inv(s)
    requires scope == GrantScope(s.grants, c.grant.value) && LeaseUsed(cfg, c, scope, o) != Some(false)
    requires leased == LogAll(s, c.session, LeaseTrail(cfg, c, scope, o))
    requires leased.log + [Entry(c.session, Executed(c, payload))] <= t.log && t.grants == s.grants
    ensures ExecutedProperly(cfg, t, |leased.log|)
  {
    hide RecordsAuth, Covers, LeaseTrail, LeaseUsed, Checks.PassesAssertExecutable, LogAll, GrantScope, TextAt, Injects,
         CredentialBound, LedgerInvariant.Inv;
    var x, k := CallDeed(d, c), |leased.log|;
    var i: nat, j: nat, g: nat :| HeldBy(cfg, s, d, c, c.grant.value, i, j, g);
    CoversItsId(cfg, s.grants[g], c.grant.value, x);
    ScopeOfGrant(s, g);
    LogAllAdds(s, c.session, LeaseTrail(cfg, c, scope, o));
    assert t.log[k] == Entry(c.session, Executed(c, payload)) by {
      assert (leased.log + [Entry(c.session, Executed(c, payload))])[k] == t.log[k];
    }
    assert t.log[i] == s.log[i] && t.log[j] == s.log[j];
    BoundIff(cfg, c, scope);
    if CredentialBound(cfg, x, scope) {
      LeaseOfBound(cfg, c, scope, o);
      assert LeaseUsed(cfg, c, scope, o).value;
      UsedIsInjected(cfg, c, scope, o);
      assert t.log[k - 1] == leased.log[k - 1];
      assert Injects(t.log[k - 1], x);
    }
    assert PreparedBy(cfg, t, k, x, c.auth.check, c.auth.proofHash, i, j, g);
  }

  lemma CoversItsId(cfg: Config, g: Grant, id: nat, x: Deed)
    requires Covers(cfg, g, id, x)
    ensures g.id == id
  {
  }

  lemma LeaseOfBound(cfg: Config, c: Call, scope: string, o: Outside)
    ensures LeaseUsed(cfg, c, scope, o).Some? <==> FindBinding(cfg.bindings, c.tool, scope, c.resource).Some?
  {
    hide FindBinding, Broker.Mintable;
  }

  lemma LoggedExecution(s: Store, c: Call, payload: Value)
    ensures var t := LogExecution(s, c, payload);
      && s.log + [Entry(c.session, Executed(c, payload))] <= t.log && t == s.(log := t.log)
      && forall k :: |s.log| < k < |t.log| ==> !t.log[k].event.CallExecuted?
  {
    hide RedactedFields, Executed;
  }

  lemma TrailExecutesNothing(cfg: Config, c: Call, scope: string, o: Outside)
    ensures forall e :: e in LeaseTrail(cfg, c, scope, o) ==> !e.CallExecuted?
  {
    TrailIsQuiet(cfg, c, scope, o);
  }

  lemma ExecuteKeepsOrder(cfg: Config, w: World, d: nat, o: Outside)
    requires GatewaySafety.Inv(w) && InOrder(cfg, w)
    ensures InOrder(cfg, ExecuteForCall(cfg, w, d, o))
  {
    hide AllProper, CallReady, LedgerInvariant.Inv, LedgerInvariant.Evolves, Tracked, Checks.Inv, LeaseTrail, LeaseUsed, LogAll,
         GrantScope, LogExecution, Checks.PassesAssertExecutable, QuietGrowth, GatewaySafety.Inv;
    if d in w.calls && w.calls[d].grant.Some? {
      var c := w.calls[d];
      var scope := GrantScope(w.store.grants, c.grant.value);
      var trail := LeaseTrail(cfg, c, scope, o);
      var leased := LogAll(w.store, c.session, trail);
      LedgerInOrder(w);
      TrailIsQuiet(cfg, c, scope, o);
      LogAllIsQuiet(w.store, c.session, trail);
      QuietKeepsOrder(cfg, w, w.(store := leased));
      if o.payload.Some? && LeaseUsed(cfg, c, scope, o) != Some(false) {
        var t := LogExecution(leased, c, o.payload.value);
        CallKeyedBy(w, d);
        LoggedExecution(leased, c, o.payload.value);
        LogAllAdds(w.store, c.session, trail);
        ExecutionProper(cfg, w.store, leased, t, d, c, scope, o, o.payload.value);
        ExecutionKeepsOrder(cfg, leased, t, w.calls, |leased.log|);
      }
    }
  }

  lemma LedgerInOrder(w: World)
    requires GatewaySafety.Inv(w)
    ensures LedgerInvariant.Inv(w.store)
  {
  }

  lemma CallKeyedBy(w: World, d: nat)
    requires GatewaySafety.Inv(w) && d in w.calls
    ensures w.calls[d].auth.decision == d
  {
    hide LedgerInvariant.Inv, Checks.Inv, Tracked;
    CallKeyed(w.store, w.calls, d);
  }

  /** Growth by one proper execution. */
  lemma ExecutionKeepsOrder(cfg: Config, s: Store, t: Store, calls: map<nat, Call>, k: nat)
    requires AllProper(cfg, s) && CallsReady(cfg, s, calls)
    requires s.log <= t.log && t.grants == s.grants && k == |s.log| < |t.log| && ExecutedProperly(cfg, t, k)
    requires forall n :: k < n < |t.log| ==> !t.log[n].event.CallExecuted?
    ensures AllProper(cfg, t) && CallsReady(cfg, t, calls)
  {
    hide CallReady, Gateway.Prepared, Prepared;
    assert Extends(s, t);
    forall n | 0 <= n < |t.log| ensures ExecutedProperly(cfg, t, n) {
      if n < k {
        ProperSurvives(cfg, s, t, n);
      }
    }
    forall d | d in calls ensures CallReady(cfg, t, d, calls[d]) {
      ReadySurvives(cfg, s, t, d, calls[d]);
    }
  }

  // ---- Every run ----

  lemma StepKeepsOrder(cfg: Config, w: World, step: Step)
    requires GatewaySafety.Inv(w) && InOrder(cfg, w)
    ensures InOrder(cfg, Apply(cfg, w, step))
  {
    hide GatewaySafety.Inv, InOrder, QuietGrowth, LedgerInvariant.Inv, RunPreflight, RunAuthorize, BeginCall, ConsumeForCall,
         ExecuteForCall, Approve;
    LedgerInOrder(w);
    match step {
      case PreflightStep(session, agent, agentActive, predictions) =>
        PreflightKeepsInv(cfg, w, session, agent, agentActive, predictions);
        PreflightKeepsCalls(cfg, w, session, agent, agentActive, predictions);
        QuietKeepsOrder(cfg, w, Apply(cfg, w, step));
      case RequestScopeStep(q) =>
        AskedQuietly(cfg, w, q);
        QuietKeepsOrder(cfg, w, Apply(cfg, w, step));
      case BeginStep(q) => BeginKeepsOrder(cfg, w, q);
      case ConsumeStep(call, tie) => ConsumeKeepsOrder(cfg, w, call, tie);
      case ExecuteStep(call, outside) => ExecuteKeepsOrder(cfg, w, call, outside);
      case ApproveStep(request, approver) =>
        ApproveKeepsWorldInv(cfg, w, request, approver);
        ApproveKeepsCalls(cfg, w, request, approver);
        QuietKeepsOrder(cfg, w, Apply(cfg, w, step));
      case NoteStep(session, note) =>
        NoteIsQuiet(note);
        LogIsQuiet(w.store, session, NoteEvent(note));
        QuietKeepsOrder(cfg, w, Apply(cfg, w, step));
      case TickStep(seconds) =>
        TickIsQuiet(w.store, seconds);
        QuietKeepsOrder(cfg, w, Apply(cfg, w, step));
    }
  }

  lemma AskedQuietly(cfg: Config, w: World, q: Question)
    ensures QuietGrowth(w.store, RunAuthorize(cfg, w, q).0.store) && RunAuthorize(cfg, w, q).0.calls == w.calls
  {
    hide QuietGrowth, RunAuthorize, DecidedBefore, Checks.Evolves, Checks.Inv;
    AuthorizeIsQuiet(cfg, w, q);
  }

  lemma TickIsQuiet(s: Store, seconds: nat)
    ensures QuietGrowth(s, s.(now := s.now + seconds))
  {
  }

  lemma PreflightKeepsCalls(cfg: Config, w: World, session: string, agent: string, agentActive: bool, predictions: seq<Prediction>)
    ensures RunPreflight(cfg, w, session, agent, agentActive, predictions).calls == w.calls
  {
    hide Anticipate, SaveHits, HitsFor, PreflightAsked, PreflightDone;
  }

  lemma ApproveKeepsCalls(cfg: Config, w: World, request: nat, approver: string)
    ensures Approve(cfg, w, request, approver).calls == w.calls
  {
    hide ApproveRequest;
  }

  lemma {:induction false} EveryRunIsInOrder(cfg: Config, w: World, steps: seq<Step>)
    requires GatewaySafety.Inv(w) && InOrder(cfg, w)
    ensures InOrder(cfg, Run(cfg, w, steps))
  {
    hide GatewaySafety.Inv, InOrder, Apply, Grows;
    if steps != [] {
      var n := |steps| - 1;
      EveryRunIsInOrder(cfg, w, steps[..n]);
      EveryRunKeepsInv(cfg, w, steps[..n]);
      StepKeepsOrder(cfg, Run(cfg, w, steps[..n]), steps[n]);
    }
  }

  lemma StartIsInOrder(cfg: Config, w: World)
    requires Initial(w)
    ensures InOrder(cfg, w)
  {
  }

  /**
   * In every run, each execution is preceded by the record of its decision with the same check and proof, then by the
   * consumption of a grant of the session that covers the tool and the resource, and then, if a credential is bound to
   * the tool under the scope of that grant, by the injection of the credential for this very decision.
   */
  lemma EveryExecutionWasPrepared(cfg: Config, w: World, steps: seq<Step>)
    requires Initial(w)
    ensures AllProper(cfg, Run(cfg, w, steps).store)
  {
    hide Run, AllProper, CallsReady;
    InitialInv(w);
    StartIsInOrder(cfg, w);
    EveryRunIsInOrder(cfg, w, steps);
  }

  // ---- Exactly when a call under way is executed ----

  /** The first row that binds a credential to the call. */
  predicate FirstBinding(cfg: Config, x: Deed, scope: string, n: nat) {
    n < |cfg.bindings| && Binds(cfg.bindings[n], x, scope) && forall m :: 0 <= m < n ==> !Binds(cfg.bindings[m], x, scope)
  }

  /** No credential is bound, or the provider offers a mode for the one that is and resolves its secret. */
  ghost predicate LeaseAvailable(cfg: Config, x: Deed, scope: string, o: Outside) {
    forall n: nat :: FirstBinding(cfg, x, scope, n) ==> Life.Offers(o.readiness, cfg.bindings[n].injectionMode) && o.resolves
  }

  lemma {:induction false} FirstIsFound(rows: seq<BindingRec>, x: Deed, scope: string, p: BindingRec -> bool, n: nat)
    requires forall b :: p(b) <==> Binds(b, x, scope)
    requires n < |rows| && Binds(rows[n], x, scope) && forall m :: 0 <= m < n ==> !Binds(rows[m], x, scope)
    ensures FirstWhere(rows, p) == Some(rows[n])
  {
    if n > 0 {
      assert forall m :: 0 <= m < n - 1 ==> rows[1..][m] == rows[m + 1];
      FirstIsFound(rows[1..], x, scope, p, n - 1);
    }
  }

  lemma FirstBindingFound(cfg: Config, x: Deed, scope: string, n: nat)
    requires FirstBinding(cfg, x, scope, n)
    ensures FindBinding(cfg.bindings, x.tool, scope, x.resource) == Some(cfg.bindings[n])
  {
    FirstIsFound(cfg.bindings, x, scope, (b: BindingRec) => b.tool == x.tool && b.scope == scope && b.resource == x.resource, n);
  }

  lemma {:induction false} SomeFirst(cfg: Config, x: Deed, scope: string, k: nat) returns (n: nat)
    requires k < |cfg.bindings| && Binds(cfg.bindings[k], x, scope)
    ensures FirstBinding(cfg, x, scope, n)
  {
    n := k;
    if m :| 0 <= m < k && Binds(cfg.bindings[m], x, scope) {
      n := SomeFirst(cfg, x, scope, m);
    }
  }

  lemma MintableIff(c: Call, scope: string, b: BindingRec, readiness: Broker.Readiness)
    ensures Broker.Mintable(readiness, LeaseRequest(c, scope, b)) <==> Life.Offers(readiness, b.injectionMode)
  {
    hide Broker.Mintable, Life.Offers;
    Life.MintedExactlyWhen(readiness, LeaseRequest(c, scope, b));
  }

  /** The lease does not stop the call exactly when it is available. */
  lemma UnstoppedIff(cfg: Config, c: Call, scope: string, o: Outside)
    ensures LeaseUsed(cfg, c, scope, o) != Some(false) <==> LeaseAvailable(cfg, CallDeed(c.auth.decision, c), scope, o)
  {
    hide FindBinding, Broker.Mintable, LeaseRequest, Life.Offers, Binds;
    var x := CallDeed(c.auth.decision, c);
    BoundIff(cfg, c, scope);
    if CredentialBound(cfg, x, scope) {
      var k :| 0 <= k < |cfg.bindings| && Binds(cfg.bindings[k], x, scope);
      var n := SomeFirst(cfg, x, scope, k);
      FirstBindingFound(cfg, x, scope, n);
      MintableIff(c, scope, cfg.bindings[n], o.readiness);
      assert LeaseUsed(cfg, c, scope, o) == Some(Broker.Mintable(o.readiness, LeaseRequest(c, scope, cfg.bindings[n])) && o.resolves);
      forall m: nat | FirstBinding(cfg, x, scope, m) ensures m == n {
        assert !(m < n) && !(n < m);
      }
    }
  }

  /** The step appended an execution for the decision. */
  ghost predicate ExecutedNow(s: Store, t: Store, d: nat) {
    exists k :: |s.log| <= k < |t.log| && t.log[k].event.CallExecuted? && t.log[k].event.decision == d
  }

  /** The call holds a consumed grant of this scope. */
  ghost predicate HoldsScope(w: World, d: nat, scope: string) {
    && d in w.calls && w.calls[d].grant.Some?
    && exists g :: g in w.store.grants && g.id == w.calls[d].grant.value && g.scope == scope
  }

  lemma HeldScope(cfg: Config, w: World, d: nat, scope: string)
    requires GatewaySafety.Inv(w) && HoldsScope(w, d, scope)
    ensures GrantScope(w.store.grants, w.calls[d].grant.value) == scope
  {
    hide GrantScope, Tracked, Checks.Inv;
    LedgerInOrder(w);
    var g :| g in w.store.grants && g.id == w.calls[d].grant.value && g.scope == scope;
    var n :| 0 <= n < |w.store.grants| && w.store.grants[n] == g;
    ScopeOfGrant(w.store, n);
  }

  lemma HolderHasScope(cfg: Config, w: World, d: nat) returns (scope: string)
    requires InOrder(cfg, w) && d in w.calls && w.calls[d].grant.Some?
    ensures HoldsScope(w, d, scope)
  {
    hide RecordsAuth, AllProper, Checks.PassesAssertExecutable;
    var c := w.calls[d];
    assert CallReady(cfg, w.store, d, c);
    var i: nat, j: nat, g: nat :| HeldBy(cfg, w.store, d, c, c.grant.value, i, j, g);
    CoversItsId(cfg, w.store.grants[g], c.grant.value, CallDeed(d, c));
    scope := w.store.grants[g].scope;
    assert w.store.grants[g] in w.store.grants;
  }

  lemma GuardPasses(cfg: Config, w: World, d: nat)
    requires InOrder(cfg, w) && d in w.calls
    ensures Checks.PassesAssertExecutable(w.calls[d].auth.verdict, w.calls[d].auth.state)
  {
    hide AllProper;
    assert CallReady(cfg, w.store, d, w.calls[d]);
  }

  predicate HoldsGrant(w: World, d: nat) {
    d in w.calls && w.calls[d].grant.Some?
  }

  lemma NoScopeHeld(w: World, d: nat)
    ensures !HoldsGrant(w, d) ==> forall scope :: !HoldsScope(w, d, scope)
  {
  }

  /** The call was executed exactly when nothing was missing; either way it is over, and only the log has changed. */
  ghost predicate ExecutionSettled(cfg: Config, w: World, t: World, d: nat, o: Outside) {
    && (ExecutedNow(w.store, t.store, d) <==> o.payload.Some? && exists scope :: MayRun(cfg, w, d, scope, o))
    && t == w.(store := w.store.(log := t.store.log), calls := if HoldsGrant(w, d) then w.calls - {d} else w.calls)
  }

  ghost predicate MayRun(cfg: Config, w: World, d: nat, scope: string, o: Outside) {
    HoldsScope(w, d, scope) && LeaseAvailable(cfg, CallDeed(d, w.calls[d]), scope, o)
  }

  /** With the lease refused or no payload, nothing is executed; otherwise the call is. */
  lemma HolderSettled(cfg: Config, w: World, d: nat, o: Outside, scope: string)
    requires HoldsGrant(w, d) && scope == GrantScope(w.store.grants, w.calls[d].grant.value)
    requires w.calls[d].auth.decision == d && Checks.PassesAssertExecutable(w.calls[d].auth.verdict, w.calls[d].auth.state)
    ensures var t := ExecuteForCall(cfg, w, d, o);
      && (ExecutedNow(w.store, t.store, d) <==> o.payload.Some? && LeaseUsed(cfg, w.calls[d], scope, o) != Some(false))
      && t == w.(store := w.store.(log := t.store.log), calls := w.calls - {d})
  {
    hide LeaseTrail, LeaseUsed, LogAll, GrantScope, LogExecution, Checks.PassesAssertExecutable;
    var c := w.calls[d];
    var trail := LeaseTrail(cfg, c, scope, o);
    var leased := LogAll(w.store, c.session, trail);
    LogAllAdds(w.store, c.session, trail);
    TrailExecutesNothing(cfg, c, scope, o);
    forall k | |w.store.log| <= k < |leased.log| ensures !leased.log[k].event.CallExecuted? {
      assert leased.log[|w.store.log| + (k - |w.store.log|)] == Entry(c.session, trail[k - |w.store.log|]);
      assert trail[k - |w.store.log|] in trail;
    }
    if o.payload.Some? {
      LoggedExecution(leased, c, o.payload.value);
      var t := LogExecution(leased, c, o.payload.value);
      assert t.log[|leased.log|] == (leased.log + [Entry(c.session, Executed(c, o.payload.value))])[|leased.log|];
      assert ExecutedNow(w.store, t, d);
    }
  }

  lemma CallSettled(cfg: Config, w: World, d: nat, o: Outside)
    requires GatewaySafety.Inv(w) && InOrder(cfg, w)
    ensures ExecutionSettled(cfg, w, ExecuteForCall(cfg, w, d, o), d, o)
  {
    hide GatewaySafety.Inv, InOrder, LeaseUsed, GrantScope, LeaseAvailable, HoldsScope, ExecutedNow, ExecuteForCall,
         Checks.PassesAssertExecutable;
    NoScopeHeld(w, d);
    if HoldsGrant(w, d) {
      var c := w.calls[d];
      var scope := HolderHasScope(cfg, w, d);
      HeldScope(cfg, w, d, scope);
      CallKeyedBy(w, d);
      GuardPasses(cfg, w, d);
      UnstoppedIff(cfg, c, scope, o);
      HolderSettled(cfg, w, d, o, scope);
      forall other | HoldsScope(w, d, other) ensures other == scope {
        HeldScope(cfg, w, d, other);
      }
      assert MayRun(cfg, w, d, scope, o) <==> LeaseUsed(cfg, c, scope, o) != Some(false);
    } else {
      NothingHeld(cfg, w, d, o);
    }
  }

  lemma NothingHeld(cfg: Config, w: World, d: nat, o: Outside)
    requires !HoldsGrant(w, d)
    ensures ExecuteForCall(cfg, w, d, o) == w && !ExecutedNow(w.store, w.store, d)
  {
  }

  /**
   * In every reachable world, a call under way is executed by the next step exactly when it holds a consumed grant, the
   * downstream tool returns a payload, and the credential, if one is bound under the scope of that grant, can be leased.
   * The guard before the execution never stops it. Either way the call is over, and only the log has changed.
   */
  lemma ExecutesExactlyWhen(cfg: Config, w: World, d: nat, o: Outside)
    requires GatewaySafety.Inv(w) && InOrder(cfg, w)
    ensures ExecutionSettled(cfg, w, Apply(cfg, w, ExecuteStep(d, o)), d, o)
  {
    hide GatewaySafety.Inv, InOrder, ExecutionSettled, RunPreflight, RunAuthorize, BeginCall, ConsumeForCall, ExecuteForCall, Approve;
    CallSettled(cfg, w, d, o);
  }
}
