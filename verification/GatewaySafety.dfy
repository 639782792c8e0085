/** Safety over every run of the gateway: nothing executes without its own decision and its own consumed grant. */
module GatewaySafety {
  import opened Wrappers
  import opened Json
  import opened PolicyTable
  import opened GraphFallback
  import opened AuditLog
  import opened Ledger
  import opened LedgerEvents
  import opened LedgerInvariant
  import opened Gateway
  import opened PolicyCompile
  import opened PolicyDecide
  import opened GatewayContext
  import Redaction
  import Checks = AuthorizationChecks
  import Broker = CredentialBroker

  // ---- What the log must look like ----

  /** Which decision of which session about which tool and resource. */
  datatype Deed = Deed(session: string, tool: string, resource: string, decision: nat)

  predicate RecordsDecision(e: Entry, x: Deed) {
    e.event.DecisionRecorded? && Executable(e.event.verdict)
    && Deed(e.session, e.event.tool, e.event.resource, e.event.decision) == x
  }

  predicate ConsumesFor(e: Entry, x: Deed) {
    e.event.GrantConsumed? && Deed(e.session, e.event.tool, e.event.resource, e.event.decision) == x
  }

  function DeedOf(e: Entry): Deed
    requires e.event.CallExecuted?
  {
    Deed(e.session, e.event.tool, e.event.resource, e.event.decision)
  }

  function CallDeed(d: nat, c: Call): Deed {
    Deed(c.session, c.tool, c.resource, d)
  }

  /** Before position `k`, the log records an executable decision for the deed. */
  ghost predicate DecidedBefore(log: seq<Entry>, k: nat, x: Deed) {
    exists i :: 0 <= i < k && i < |log| && RecordsDecision(log[i], x)
  }

  /** Before position `k`, a grant was consumed for the deed, and the decision was recorded before that. */
  ghost predicate ConsumedBefore(log: seq<Entry>, k: nat, x: Deed) {
    exists j :: 0 <= j < k && j < |log| && ConsumesFor(log[j], x) && DecidedBefore(log, j, x)
  }

  predicate SpeaksOf(e: Entry, d: nat) {
    (e.event.GrantConsumed? || e.event.CallExecuted?) && e.event.decision == d
  }

  /**
   * Every execution is preceded by the consumption for its decision, which is preceded by the executable decision;
   * no two executions share a decision, and no two consumptions do.
   */
  ghost predicate SafeLog(log: seq<Entry>) {
    && (forall k :: 0 <= k < |log| && log[k].event.CallExecuted? ==> ConsumedBefore(log, k, DeedOf(log[k])))
    && (forall k, m :: 0 <= k < m < |log| && log[k].event.CallExecuted? && log[m].event.CallExecuted?
          ==> log[k].event.decision != log[m].event.decision)
    && (forall k, m :: 0 <= k < m < |log| && log[k].event.GrantConsumed? && log[m].event.GrantConsumed?
          ==> log[k].event.decision != log[m].event.decision)
  }

  /** A call under way: decided, and consumed or not; neither used nor executed beyond that. */
  ghost predicate CallOk(log: seq<Entry>, d: nat, c: Call) {
    && c.auth.decision == d && Executable(c.auth.verdict)
    && DecidedBefore(log, |log|, CallDeed(d, c))
    && (c.grant.Some? ==> ConsumedBefore(log, |log|, CallDeed(d, c)))
    && (forall k :: 0 <= k < |log| && SpeaksOf(log[k], d) ==> c.grant.Some? && log[k].event.GrantConsumed?)
  }

  /** Decision ids in use are below the next fresh id. */
  ghost predicate Bounded(log: seq<Entry>, calls: map<nat, Call>, nextId: nat) {
    && (forall d: nat, k: int :: 0 <= k < |log| && SpeaksOf(log[k], d) ==> d < nextId)
    && (forall d :: d in calls ==> d < nextId)
  }

  ghost predicate Tracked(s: Store, calls: map<nat, Call>) {
    SafeLog(s.log) && ProperLog(s.log) && Bounded(s.log, calls, s.nextId) && forall d :: d in calls ==> CallOk(s.log, d, calls[d])
  }

  ghost predicate Inv(w: World) {
    LedgerInvariant.Inv(w.store) && Checks.Inv(w.checks) && Tracked(w.store, w.calls)
  }

  // ---- Quiet growth ----

  /** An event that neither consumes nor executes, with a proper body. */
  predicate Quiet(e: Event) {
    !e.GrantConsumed? && !e.CallExecuted? && Proper(e)
  }

  /** The log grew by quiet events only, the ledger stays in order and its rows only evolve. */
  ghost predicate QuietGrowth(s: Store, t: Store) {
    && s.nextId <= t.nextId && s.log <= t.log && (forall k :: |s.log| <= k < |t.log| ==> Quiet(t.log[k].event))
    && (LedgerInvariant.Inv(s) ==> LedgerInvariant.Inv(t) && LedgerInvariant.Evolves(s, t))
  }

  lemma QuietTransitive(a: Store, b: Store, c: Store)
    requires QuietGrowth(a, b) && QuietGrowth(b, c)
    ensures QuietGrowth(a, c)
  {
    hide LedgerInvariant.Inv, LedgerInvariant.Evolves;
    if LedgerInvariant.Inv(a) {
      LedgerInvariant.EvolvesTransitive(a, b, c);
    }
  }

  lemma BeforeIsStable(log: seq<Entry>, more: seq<Entry>, k: nat, x: Deed)
    requires log <= more && k <= |log|
    ensures DecidedBefore(log, k, x) <==> DecidedBefore(more, k, x)
    ensures ConsumedBefore(log, k, x) <==> ConsumedBefore(more, k, x)
  {
  }

  lemma BeforeGrows(log: seq<Entry>, more: seq<Entry>, x: Deed)
    requires log <= more
    ensures DecidedBefore(log, |log|, x) ==> DecidedBefore(more, |more|, x)
    ensures ConsumedBefore(log, |log|, x) ==> ConsumedBefore(more, |more|, x)
  {
  }

  /** Quiet growth disturbs no call under way. */
  lemma QuietKeepsTracked(s: Store, t: Store, calls: map<nat, Call>)
    requires Tracked(s, calls) && QuietGrowth(s, t)
    ensures Tracked(t, calls)
  {
    hide LedgerInvariant.Inv, LedgerInvariant.Evolves, DecidedBefore, ConsumedBefore;
    forall k | 0 <= k < |t.log| && !Quiet(t.log[k].event) ensures k < |s.log| && t.log[k] == s.log[k] {
    }
    forall k | 0 <= k < |t.log| && t.log[k].event.CallExecuted?
      ensures ConsumedBefore(t.log, k, DeedOf(t.log[k]))
    {
      BeforeIsStable(s.log, t.log, k, DeedOf(s.log[k]));
    }
    forall d | d in calls ensures CallOk(t.log, d, calls[d]) {
      assert CallOk(s.log, d, calls[d]);
      BeforeGrows(s.log, t.log, CallDeed(d, calls[d]));
    }
  }

  // ---- The store's operations are quiet ----

  lemma LogIsQuiet(s: Store, session: string, e: Event)
    requires Quiet(e) && Plain(e)
    ensures QuietGrowth(s, Log(s, session, e))
  {
    hide LedgerInvariant.Inv, LedgerInvariant.Evolves;
    if LedgerInvariant.Inv(s) {
      LogKeepsInv(s, session, e);
    }
  }

  /** Taking fresh ids for rows of other tables. */
  lemma FreshIdIsQuiet(s: Store)
    ensures QuietGrowth(s, s.(nextId := s.nextId + 1))
  {
    hide LedgerInvariant.Inv, LedgerInvariant.Evolves;
    if LedgerInvariant.Inv(s) {
      FreshIdKeepsInv(s);
    }
  }

  lemma IssueIsQuiet(s: Store, session: string, scope: string, resource: string, proofId: string, reason: string)
    ensures QuietGrowth(s, IssueEphemeralGrant(s, session, scope, resource, proofId, reason))
  {
    hide LedgerInvariant.Inv, LedgerInvariant.Evolves;
    if LedgerInvariant.Inv(s) {
      IssueKeepsInv(s, session, scope, resource, proofId, reason);
    }
  }

  lemma CreateRequestIsQuiet(s: Store, a: RequestArgs)
    ensures QuietGrowth(s, CreateRequest(s, a))
  {
    hide LedgerInvariant.Inv, LedgerInvariant.Evolves;
    if LedgerInvariant.Inv(s) {
      CreateRequestKeepsInv(s, a);
    }
  }

  lemma SeenIsQuiet(s: Store, session: string, tool: string, resource: string)
    ensures QuietGrowth(s, MarkToolCallSeen(s, session, tool, resource))
  {
    hide LedgerInvariant.Inv, LedgerInvariant.Evolves;
    if LedgerInvariant.Inv(s) {
      SeenKeepsInv(s, session, tool, resource);
    }
  }

  lemma ApproveIsQuiet(s: Store, id: nat, approver: string)
    requires ApproveRequest(s, id, approver).Ok?
    ensures QuietGrowth(s, ApproveRequest(s, id, approver).value)
  {
    hide LedgerInvariant.Inv, LedgerInvariant.Evolves;
    if LedgerInvariant.Inv(s) {
      ApproveKeepsInv(s, id, approver);
    }
  }

  lemma {:induction false} LogAllIsQuiet(s: Store, session: string, events: seq<Event>)
    requires forall e :: e in events ==> Quiet(e) && Plain(e)
    ensures QuietGrowth(s, LogAll(s, session, events))
  {
    hide LedgerInvariant.Inv, LedgerInvariant.Evolves;
    if events == [] {
      QuietReflexive(s);
    } else {
      var before := events[..|events| - 1];
      var last := events[|events| - 1];
      assert last in events;
      forall e | e in before ensures e in events {
      }
      LogAllIsQuiet(s, session, before);
      LogIsQuiet(LogAll(s, session, before), session, last);
      QuietTransitive(s, LogAll(s, session, before), LogAll(s, session, events));
    }
  }

  lemma {:induction false} AnticipateIsQuiet(s: Store, r: SessionRec, agent: string, snapshot: nat, traces: seq<string>, predictions: seq<Prediction>)
    ensures QuietGrowth(s, Anticipate(s, r, agent, snapshot, traces, predictions))
  {
    hide LedgerInvariant.Inv, LedgerInvariant.Evolves, QuietGrowth, CreateRequest, Log, Predicted, AnticipatedArgs;
    if predictions == [] {
      assert QuietGrowth(s, s) by {
        QuietReflexive(s);
      }
    } else {
      var n := |predictions| - 1;
      var before := Anticipate(s, r, agent, snapshot, traces, predictions[..n]);
      var e := Predicted(predictions[n], snapshot);
      AnticipateIsQuiet(s, r, agent, snapshot, traces, predictions[..n]);
      PredictedIsQuiet(predictions[n], snapshot);
      LogIsQuiet(before, r.session, e);
      CreateRequestIsQuiet(Log(before, r.session, e), AnticipatedArgs(r, agent, predictions[n], traces));
      QuietTransitive(s, before, Log(before, r.session, e));
      QuietTransitive(s, Log(before, r.session, e), Anticipate(s, r, agent, snapshot, traces, predictions));
    }
  }

  lemma QuietReflexive(s: Store)
    ensures QuietGrowth(s, s)
  {
    LedgerInvariant.EvolvesReflexive(s);
  }

  lemma PredictedIsQuiet(p: Prediction, snapshot: nat)
    ensures Quiet(Predicted(p, snapshot)) && Plain(Predicted(p, snapshot))
  {
    FlatIsWellFormed(Predicted(p, snapshot).body.fields);
  }

  // ---- Authorizations are quiet ----

  lemma FollowUpIsQuiet(cfg: Config, w: World, q: Question, p: Picture, ctx: Context, d: PolicyDecision)
    ensures QuietGrowth(w.store, FollowUp(cfg, w, q, p, ctx, d).store)
    ensures FollowUp(cfg, w, q, p, ctx, d).calls == w.calls && FollowUp(cfg, w, q, p, ctx, d).checks == w.checks
    ensures FollowUp(cfg, w, q, p, ctx, d).store.log[..|w.store.log|] == w.store.log
  {
    hide QuietGrowth, IssueEphemeralGrant, CreateRequest, RequestFor;
    var t := FollowUp(cfg, w, q, p, ctx, d).store;
    if d.decision == AutoApprove {
      IssueIsQuiet(w.store, q.session, if d.requiredScope != "" then d.requiredScope else p.ts.scope, q.resource, d.proofHash, d.reason);
    } else if d.decision == EscalateHuman {
      CreateRequestIsQuiet(w.store, RequestFor(p, q, ctx, d));
    } else {
      QuietReflexive(w.store);
    }
    QuietIsPrefix(w.store, t);
  }

  lemma QuietIsPrefix(s: Store, t: Store)
    requires QuietGrowth(s, t)
    ensures s.log <= t.log && t.log[..|s.log|] == s.log
  {
  }

  /** What an authorization does to the store: quiet growth, and with an answer one decision record under a fresh id. */
  ghost predicate Answers(w: World, w1: World, q: Question, auth: Option<Auth>) {
    && QuietGrowth(w.store, w1.store) && w1.calls == w.calls
    && (Checks.Inv(w.checks) ==> Checks.Inv(w1.checks) && Checks.Evolves(w.checks, w1.checks))
    && (auth.Some? ==>
          && w.store.nextId <= auth.value.decision < w1.store.nextId
          && (Checks.Inv(w.checks) && Executable(auth.value.verdict) ==> Checks.PassesAssertExecutable(auth.value.verdict, auth.value.state))
          && (Executable(auth.value.verdict) ==>
                DecidedBefore(w1.store.log, |w1.store.log|, Deed(q.session, q.tool, q.resource, auth.value.decision))))
  }

  lemma DecidedIsQuiet(cfg: Config, w: World, s: SessionRec, q: Question, p: Picture)
    ensures var (w1, auth) := Decided(cfg, w, s, q, p); Answers(w, w1, q, auth)
  {
    hide QuietGrowth, FollowUp, Evaluated, QuestionContext, IdempotencyKey, DecidedBefore, Checks.Inv, Checks.Evolves;
    var ctx := QuestionContext(cfg, w, s, q, p);
    var bumped := w.store.(nextId := w.store.nextId + 1);
    var asked := Log(bumped, q.session, Requested(q, w.store.nextId, IdempotencyKey(cfg.sha, ctx)));
    FreshIdIsQuiet(w.store);
    RequestedIsQuiet(q, w.store.nextId, IdempotencyKey(cfg.sha, ctx));
    LogIsQuiet(bumped, q.session, Requested(q, w.store.nextId, IdempotencyKey(cfg.sha, ctx)));
    QuietTransitive(w.store, bumped, asked);
    var (checks, id) := Evaluated(cfg, w.checks, q, ctx);
    EvaluatedInOrder(cfg, w.checks, q, ctx);
    if id in checks.decisions && id in checks.checks {
      RecordIsQuiet(cfg, w.(store := asked, checks := checks), q, p, ctx, id, w.store.nextId);
      var (w1, auth) := Decided(cfg, w, s, q, p);
      QuietTransitive(w.store, asked, w1.store);
      QuietIsPrefix(w.store, asked);
    }
  }

  lemma EvaluatedInOrder(cfg: Config, checks: Checks.Service, q: Question, ctx: Context)
    ensures var (after, id) := Evaluated(cfg, checks, q, ctx);
      Checks.Inv(checks) ==> Checks.Inv(after) && Checks.Evolves(checks, after) && id in after.checks
  {
    hide IdempotencyKey, Decide, Checks.Inv, Checks.Evolves, Checks.EvaluateCheck;
    if Checks.Inv(checks) {
      var decided := if q.engineUp then Decide(cfg.sha, cfg.thresholds, ctx) else Err("policy engine unavailable");
      Checks.EvaluateKeepsInv(checks, q.session, q.tool, q.resource, IdempotencyKey(cfg.sha, ctx), 900, decided);
    }
  }

  /** The decision record and what follows it. */
  lemma RecordIsQuiet(cfg: Config, w: World, q: Question, p: Picture, ctx: Context, id: nat, snapshot: nat)
    requires id in w.checks.decisions && id in w.checks.checks
    ensures var (w1, auth) := Recorded(cfg, w, q, p, ctx, id, snapshot);
      && QuietGrowth(w.store, w1.store) && w1.calls == w.calls && w1.checks == w.checks
      && auth.decision == w.store.nextId < w1.store.nextId
      && (Executable(auth.verdict) ==> DecidedBefore(w1.store.log, |w1.store.log|, Deed(q.session, q.tool, q.resource, auth.decision)))
      && (Checks.Inv(w.checks) && Executable(auth.verdict) ==> Checks.PassesAssertExecutable(auth.verdict, auth.state))
  {
    hide QuietGrowth, FollowUp, Checks.Inv, Checks.PassesAssertExecutable, StateText;
    var d, c, decision := w.checks.decisions[id], w.checks.checks[id], w.store.nextId;
    var bumped := w.store.(nextId := decision + 1);
    var e := DecisionRecorded(decision, id, StateText(c.state), d.decision, q.tool, q.resource, snapshot, d.proofHash);
    var recorded := Log(bumped, q.session, e);
    FreshIdIsQuiet(w.store);
    LogIsQuiet(bumped, q.session, e);
    QuietTransitive(w.store, bumped, recorded);
    FollowUpIsQuiet(cfg, w.(store := recorded), q, p, ctx, d);
    var w1 := FollowUp(cfg, w.(store := recorded), q, p, ctx, d);
    QuietTransitive(w.store, recorded, w1.store);
    QuietIdsGrow(recorded, w1.store);
    assert w1.store.log[|w.store.log|] == Entry(q.session, e) by {
      assert w1.store.log[..|recorded.log|][|w.store.log|] == recorded.log[|w.store.log|];
    }
    if Checks.Inv(w.checks) {
      Checks.ExecutableIffStored(w.checks, id);
    }
  }

  lemma QuietIdsGrow(s: Store, t: Store)
    requires QuietGrowth(s, t)
    ensures s.nextId <= t.nextId && |s.log| <= |t.log|
  {
  }

  /** `run_authorize`, whatever it answers and wherever it raises, is quiet. */
  lemma AuthorizeIsQuiet(cfg: Config, w: World, q: Question)
    ensures var (w1, auth) := RunAuthorize(cfg, w, q); Answers(w, w1, q, auth)
  {
    hide QuietGrowth, Decided, Look, Checks.Inv, Checks.Evolves, SaveHits, HitsFor;
    QuietReflexive(w.store);
    Checks.EvolvesReflexive(w.checks);
    var s := FindSession(cfg.catalog, q.session);
    if s.Some? && q.agentActive && s.value.agent == q.agent {
      var ready := Prepared(cfg, w, s.value);
      assert ready.store == w.store && ready.calls == w.calls && ready.checks == w.checks;
      var look := Look(ready.graph, q.session, q.tool, q.resource, ready.store.now, cfg.parse);
      if look.Ok? {
        DecidedIsQuiet(cfg, ready, s.value, q, look.value);
      }
    }
  }

  // ---- The steps keep the invariant ----

  /** Nothing is forgotten: the log is extended, rows and checks evolve, decisions stay. */
  ghost predicate Grows(a: World, b: World) {
    LedgerInvariant.Evolves(a.store, b.store) && Checks.Evolves(a.checks, b.checks)
  }

  lemma GrowsTransitive(a: World, b: World, c: World)
    requires Grows(a, b) && Grows(b, c)
    ensures Grows(a, c)
  {
    hide LedgerInvariant.Evolves, Checks.Evolves;
    LedgerInvariant.EvolvesTransitive(a.store, b.store, c.store);
    Checks.EvolvesTransitive(a.checks, b.checks, c.checks);
  }

  lemma GrowsReflexive(w: World)
    ensures Grows(w, w)
  {
    hide LedgerInvariant.Evolves, Checks.Evolves;
    LedgerInvariant.EvolvesReflexive(w.store);
    Checks.EvolvesReflexive(w.checks);
  }

  lemma QuietKeepsInv(w: World, w1: World)
    requires Inv(w) && QuietGrowth(w.store, w1.store) && w1.calls == w.calls && Checks.Inv(w1.checks)
    requires Checks.Evolves(w.checks, w1.checks)
    ensures Inv(w1) && Grows(w, w1)
  {
    hide Tracked, Checks.Inv, LedgerInvariant.Inv, LedgerInvariant.Evolves;
    QuietKeepsTracked(w.store, w1.store, w.calls);
    QuietKeepsLedger(w.store, w1.store);
  }

  lemma QuietKeepsLedger(s: Store, t: Store)
    requires QuietGrowth(s, t) && LedgerInvariant.Inv(s)
    ensures LedgerInvariant.Inv(t) && LedgerInvariant.Evolves(s, t)
  {
  }

  /** A call that ends is forgotten. */
  lemma ForgetKeepsTracked(s: Store, calls: map<nat, Call>, d: nat)
    requires Tracked(s, calls)
    ensures Tracked(s, calls - {d})
  {
  }

  /** A new call enters with a fresh, executable decision. */
  lemma AdmitKeepsTracked(s: Store, calls: map<nat, Call>, d: nat, c: Call, before: Store)
    requires Tracked(s, calls) && Tracked(before, calls) && QuietGrowth(before, s) && before.nextId <= d < s.nextId
    requires c.auth.decision == d && Executable(c.auth.verdict) && c.grant.None? && DecidedBefore(s.log, |s.log|, CallDeed(d, c))
    ensures Tracked(s, calls[d := c])
  {
  }

  lemma AnnouncedIsQuiet(w: World, q: Question)
    ensures QuietGrowth(w.store, Announced(w, q).store) && Announced(w, q).checks == w.checks && Announced(w, q).calls == w.calls
  {
    hide QuietGrowth, HookChecked, CallRequested, MarkToolCallSeen;
    NoticesAreQuiet(q);
    var a := Log(w.store, q.session, HookChecked(q));
    var b := Log(a, q.session, CallRequested(q));
    var seen := MarkToolCallSeen(b, q.session, q.tool, q.resource);
    LogIsQuiet(w.store, q.session, HookChecked(q));
    LogIsQuiet(a, q.session, CallRequested(q));
    SeenIsQuiet(b, q.session, q.tool, q.resource);
    QuietTransitive(w.store, a, b);
    QuietTransitive(w.store, b, seen);
  }

  lemma BeginKeepsInv(cfg: Config, w: World, q: Question)
    requires Inv(w)
    ensures Inv(BeginCall(cfg, w, q).0) && Grows(w, BeginCall(cfg, w, q).0)
  {
    hide Tracked, QuietGrowth, Checks.Inv, LedgerInvariant.Inv, LedgerInvariant.Evolves, RunAuthorize, DecidedBefore,
         Checks.Evolves, Announced, DenialReturned;
    var w0 := Announced(w, q);
    AnnouncedIsQuiet(w, q);
    Checks.EvolvesReflexive(w.checks);
    QuietKeepsInv(w, w0);
    var (w1, auth) := RunAuthorize(cfg, w0, q);
    AuthorizeIsQuiet(cfg, w0, q);
    QuietKeepsInv(w0, w1);
    GrowsTransitive(w, w0, w1);
    Checks.EvolvesReflexive(w1.checks);
    LedgerInvariant.EvolvesReflexive(w1.store);
    if auth.Some? && Executable(auth.value.verdict) {
      AdmitKeepsTracked(w1.store, w1.calls, auth.value.decision, Call(q.session, q.tool, q.resource, auth.value, None), w0.store);
    } else if auth.Some? {
      DenialIsQuiet(q, auth.value);
      LogIsQuiet(w1.store, q.session, DenialReturned(q, auth.value));
      QuietKeepsInv(w1, BeginCall(cfg, w, q).0);
    }
    GrowsTransitive(w, w1, BeginCall(cfg, w, q).0);
  }

  lemma NoticesAreQuiet(q: Question)
    ensures Quiet(HookChecked(q)) && Plain(HookChecked(q)) && Quiet(CallRequested(q)) && Plain(CallRequested(q))
  {
    FlatIsWellFormed(HookChecked(q).body.fields);
    FlatIsWellFormed(CallRequested(q).body.fields);
  }

  lemma DenialIsQuiet(q: Question, auth: Auth)
    ensures Quiet(DenialReturned(q, auth)) && Plain(DenialReturned(q, auth))
  {
    FlatIsWellFormed(DenialReturned(q, auth).body.fields);
  }

  /** The consumption of a call is the first for its decision. */
  lemma ConsumptionKeepsTracked(s: Store, t: Store, calls: map<nat, Call>, d: nat, c: Call, e: Entry, grant: nat)
    requires Tracked(s, calls) && d in calls && calls[d] == c && c.grant.None?
    requires t.log == s.log + [e] && t.nextId == s.nextId && ConsumesFor(e, CallDeed(d, c))
    ensures Tracked(t, calls[d := c.(grant := Some(grant))])
  {
    hide DecidedBefore, ConsumedBefore;
    var n := |s.log|;
    assert CallOk(s.log, d, c);
    forall k | 0 <= k < n ensures t.log[k] == s.log[k] {
    }
    forall k | 0 <= k < |t.log| && t.log[k].event.CallExecuted? ensures ConsumedBefore(t.log, k, DeedOf(t.log[k])) {
      BeforeIsStable(s.log, t.log, k, DeedOf(s.log[k]));
    }
    forall x | x in calls && x != d ensures CallOk(t.log, x, calls[x]) {
      assert CallOk(s.log, x, calls[x]);
      BeforeGrows(s.log, t.log, CallDeed(x, calls[x]));
    }
    ConsumedNow(s.log, t.log, CallDeed(d, c));
    BeforeGrows(s.log, t.log, CallDeed(d, c));
    assert CallOk(t.log, d, c.(grant := Some(grant)));
  }

  lemma ConsumedNow(log: seq<Entry>, more: seq<Entry>, x: Deed)
    requires |more| == |log| + 1 && log <= more && ConsumesFor(more[|log|], x) && DecidedBefore(log, |log|, x)
    ensures ConsumedBefore(more, |more|, x)
  {
  }

  lemma ConsumeForCallKeepsInv(cfg: Config, w: World, d: nat, tie: nat)
    requires Inv(w)
    ensures Inv(ConsumeForCall(cfg, w, d, tie)) && Grows(w, ConsumeForCall(cfg, w, d, tie))
  {
    hide Tracked, Checks.Inv, LedgerInvariant.Inv, LedgerInvariant.Evolves, Newest, Consumable;
    GrowsReflexive(w);
    if d in w.calls && w.calls[d].grant.None? {
      var c := w.calls[d];
      ConsumeKeepsInv(w.store, cfg.catalog.toolScopes, c.session, c.tool, c.resource, d, tie);
      var (store, i) := Consume(w.store, cfg.catalog.toolScopes, c.session, c.tool, c.resource, d, tie);
      if i.Some? {
        ConsumptionKeepsTracked(w.store, store, w.calls, d, c, store.log[|w.store.log|], store.grants[i.value].id);
      } else {
        ForgetKeepsTracked(w.store, w.calls, d);
      }
    }
  }

  /** The execution of a call is the first for its decision. */
  lemma ExecutionKeepsTracked(s: Store, t: Store, calls: map<nat, Call>, d: nat, c: Call, e: Entry)
    requires Tracked(s, calls) && d in calls && calls[d] == c && c.grant.Some?
    requires t.log == s.log + [e] && t.nextId == s.nextId && e.event.CallExecuted? && DeedOf(e) == CallDeed(d, c)
    ensures Tracked(t, calls - {d})
  {
    hide DecidedBefore, ConsumedBefore;
    var n := |s.log|;
    assert CallOk(s.log, d, c);
    forall k | 0 <= k < n ensures t.log[k] == s.log[k] {
    }
    forall k | 0 <= k < |t.log| && t.log[k].event.CallExecuted? ensures ConsumedBefore(t.log, k, DeedOf(t.log[k])) {
      BeforeIsStable(s.log, t.log, k, DeedOf(t.log[k]));
    }
    forall x | x in calls && x != d ensures CallOk(t.log, x, calls[x]) {
      assert CallOk(s.log, x, calls[x]);
      BeforeGrows(s.log, t.log, CallDeed(x, calls[x]));
    }
  }

  lemma TrailIsQuiet(cfg: Config, c: Call, scope: string, o: Outside)
    ensures forall e :: e in LeaseTrail(cfg, c, scope, o) ==> Quiet(e) && Plain(e)
  {
    hide FindBinding, Broker.Mintable, LeaseRequest, LeaseEvent;
    forall eventType ensures Quiet(LeaseEvent(c, eventType)) && Plain(LeaseEvent(c, eventType)) {
      LeaseEventIsQuiet(c, eventType);
    }
  }

  lemma LeaseEventIsQuiet(c: Call, eventType: string)
    ensures Quiet(LeaseEvent(c, eventType)) && Plain(LeaseEvent(c, eventType))
  {
    FlatIsWellFormed(LeaseEvent(c, eventType).body.fields);
  }

  lemma RequestedIsQuiet(q: Question, snapshot: nat, key: string)
    ensures Quiet(Requested(q, snapshot, key)) && Plain(Requested(q, snapshot, key))
  {
    FlatIsWellFormed(Requested(q, snapshot, key).body.fields);
  }

  lemma OutputRedactedIsQuiet(c: Call, redacted: seq<string>)
    ensures Quiet(OutputRedacted(c, redacted)) && Plain(OutputRedacted(c, redacted))
  {
    FlatIsWellFormed(OutputRedacted(c, redacted).body.fields);
  }

  lemma NoteIsQuiet(note: Note)
    ensures Quiet(NoteEvent(note)) && Plain(NoteEvent(note))
  {
    FlatIsWellFormed(NoteEvent(note).body.fields);
  }

  lemma ExecuteForCallKeepsInv(cfg: Config, w: World, d: nat, o: Outside)
    requires Inv(w)
    ensures Inv(ExecuteForCall(cfg, w, d, o)) && Grows(w, ExecuteForCall(cfg, w, d, o))
  {
    hide Tracked, Checks.Inv, LedgerInvariant.Inv, LedgerInvariant.Evolves, QuietGrowth, LeaseTrail, LogAll, GrantScope,
         LeaseUsed, LogExecution, Checks.PassesAssertExecutable;
    GrowsReflexive(w);
    if d in w.calls && w.calls[d].grant.Some? {
      var c := w.calls[d];
      var scope := GrantScope(w.store.grants, c.grant.value);
      var leased := LogAll(w.store, c.session, LeaseTrail(cfg, c, scope, o));
      TrailIsQuiet(cfg, c, scope, o);
      LogAllIsQuiet(w.store, c.session, LeaseTrail(cfg, c, scope, o));
      QuietKeepsTracked(w.store, leased, w.calls);
      QuietKeepsLedger(w.store, leased);
      ForgetKeepsTracked(leased, w.calls, d);
      if o.payload.Some? {
        assert c.auth.decision == d by {
          CallKeyed(w.store, w.calls, d);
        }
        LogExecutionKeepsInv(leased, w.calls, d, c, o.payload.value);
        LedgerInvariant.EvolvesTransitive(w.store, leased, LogExecution(leased, c, o.payload.value));
      }
    }
  }

  lemma CallKeyed(s: Store, calls: map<nat, Call>, d: nat)
    requires Tracked(s, calls) && d in calls
    ensures calls[d].auth.decision == d
  {
  }

  lemma LogExecutionKeepsInv(s: Store, calls: map<nat, Call>, d: nat, c: Call, payload: Value)
    requires Tracked(s, calls) && LedgerInvariant.Inv(s) && d in calls && calls[d] == c && c.grant.Some? && c.auth.decision == d
    ensures Tracked(LogExecution(s, c, payload), calls - {d}) && LedgerInvariant.Inv(LogExecution(s, c, payload))
    ensures LedgerInvariant.Evolves(s, LogExecution(s, c, payload))
  {
    hide Tracked, LedgerInvariant.Inv, LedgerInvariant.Evolves, QuietGrowth, RedactedFields, TextAt, Redaction.Scrubbed;
    var e := Executed(c, payload);
    var executed := Log(s, c.session, e);
    ExecutionKeepsTracked(s, executed, calls, d, c, Entry(c.session, e));
    LogKeepsInv(s, c.session, e);
    if RedactedFields(payload) != [] {
      OutputRedactedIsQuiet(c, RedactedFields(payload));
      LogIsQuiet(executed, c.session, OutputRedacted(c, RedactedFields(payload)));
      QuietKeepsTracked(executed, LogExecution(s, c, payload), calls - {d});
      QuietKeepsLedger(executed, LogExecution(s, c, payload));
      LedgerInvariant.EvolvesTransitive(s, executed, LogExecution(s, c, payload));
    }
  }

  lemma PreflightKeepsInv(cfg: Config, w: World, session: string, agent: string, agentActive: bool, predictions: seq<Prediction>)
    requires Inv(w)
    ensures Inv(RunPreflight(cfg, w, session, agent, agentActive, predictions)) && Grows(w, RunPreflight(cfg, w, session, agent, agentActive, predictions))
    ensures QuietGrowth(w.store, RunPreflight(cfg, w, session, agent, agentActive, predictions).store)
  {
    hide Tracked, Checks.Inv, LedgerInvariant.Inv, LedgerInvariant.Evolves, QuietGrowth, Anticipate, HitRecipes, PreflightOpened;
    GrowsReflexive(w);
    QuietReflexive(w.store);
    var s := FindSession(cfg.catalog, session);
    if s.Some? && agentActive && s.value.agent == agent {
      OpeningIsQuiet(cfg, w, s.value, agent);
      var (started, snapshot, hits) := PreflightOpened(cfg, w, s.value, agent);
      AnticipateIsQuiet(started.store, s.value, agent, snapshot, HitRecipes(hits), predictions);
      QuietTransitive(w.store, started.store, RunPreflight(cfg, w, session, agent, agentActive, predictions).store);
      QuietKeepsInv(w, RunPreflight(cfg, w, session, agent, agentActive, predictions));
    }
  }

  lemma OpeningIsQuiet(cfg: Config, w: World, s: SessionRec, agent: string)
    ensures var started := PreflightOpened(cfg, w, s, agent).0;
      QuietGrowth(w.store, started.store) && started.calls == w.calls && started.checks == w.checks
  {
    hide QuietGrowth, HitsFor, SaveHits, PreflightAsked, PreflightDone;
    var logged := Log(w.store, s.session, PreflightAsked(agent));
    var hits := HitsFor(Sync(cfg, w.(store := logged)).graph, s);
    var bumped := logged.(nextId := logged.nextId + 1);
    var e := PreflightDone(logged.nextId, hits);
    PreflightNoticesAreQuiet(agent, logged.nextId, hits);
    LogIsQuiet(w.store, s.session, PreflightAsked(agent));
    FreshIdIsQuiet(logged);
    LogIsQuiet(bumped, s.session, e);
    QuietTransitive(w.store, logged, bumped);
    QuietTransitive(w.store, bumped, Log(bumped, s.session, e));
  }

  lemma PreflightNoticesAreQuiet(agent: string, snapshot: nat, hits: seq<Hit>)
    ensures Quiet(PreflightAsked(agent)) && Plain(PreflightAsked(agent))
    ensures Quiet(PreflightDone(snapshot, hits)) && Plain(PreflightDone(snapshot, hits))
  {
    FlatIsWellFormed(PreflightAsked(agent).body.fields);
    FlatIsWellFormed(PreflightDone(snapshot, hits).body.fields);
  }

  lemma ApproveKeepsWorldInv(cfg: Config, w: World, request: nat, approver: string)
    requires Inv(w)
    ensures Inv(Approve(cfg, w, request, approver)) && Grows(w, Approve(cfg, w, request, approver))
    ensures QuietGrowth(w.store, Approve(cfg, w, request, approver).store)
  {
    hide Tracked, Checks.Inv, LedgerInvariant.Inv, LedgerInvariant.Evolves, QuietGrowth, ApproveRequest;
    GrowsReflexive(w);
    QuietReflexive(w.store);
    if ApproveRequest(w.store, request, approver).Ok? {
      ApproveIsQuiet(w.store, request, approver);
      QuietKeepsInv(w, Approve(cfg, w, request, approver));
    }
  }

  lemma TickKeepsWorldInv(w: World, seconds: nat)
    requires Inv(w)
    ensures var t := w.(store := w.store.(now := w.store.now + seconds), checks := w.checks.(now := w.checks.now + seconds));
      Inv(t) && Grows(w, t)
  {
  }

  lemma NoteKeepsInv(w: World, session: string, note: Note)
    requires Inv(w)
    ensures Inv(w.(store := Log(w.store, session, NoteEvent(note)))) && Grows(w, w.(store := Log(w.store, session, NoteEvent(note))))
  {
    hide Tracked, Checks.Inv, LedgerInvariant.Inv, LedgerInvariant.Evolves, QuietGrowth;
    NoteIsQuiet(note);
    LogIsQuiet(w.store, session, NoteEvent(note));
    QuietKeepsInv(w, w.(store := Log(w.store, session, NoteEvent(note))));
  }

  lemma RequestScopeKeepsInv(cfg: Config, w: World, q: Question)
    requires Inv(w)
    ensures Inv(RunAuthorize(cfg, w, q).0) && Grows(w, RunAuthorize(cfg, w, q).0)
  {
    hide Tracked, Checks.Inv, LedgerInvariant.Inv, LedgerInvariant.Evolves, QuietGrowth, RunAuthorize, DecidedBefore, Checks.Evolves;
    AuthorizeIsQuiet(cfg, w, q);
    QuietKeepsInv(w, RunAuthorize(cfg, w, q).0);
  }

  lemma StepKeepsInv(cfg: Config, w: World, step: Gateway.Step)
    requires Inv(w)
    ensures Inv(Gateway.Apply(cfg, w, step)) && Grows(w, Gateway.Apply(cfg, w, step))
  {
    hide Inv, Grows, RunPreflight, RunAuthorize, BeginCall, ConsumeForCall, ExecuteForCall, Approve;
    match step {
      case PreflightStep(session, agent, agentActive, predictions) => PreflightKeepsInv(cfg, w, session, agent, agentActive, predictions);
      case RequestScopeStep(q) => RequestScopeKeepsInv(cfg, w, q);
      case BeginStep(q) => BeginKeepsInv(cfg, w, q);
      case ConsumeStep(call, tie) => ConsumeForCallKeepsInv(cfg, w, call, tie);
      case ExecuteStep(call, outside) => ExecuteForCallKeepsInv(cfg, w, call, outside);
      case ApproveStep(request, approver) => ApproveKeepsWorldInv(cfg, w, request, approver);
      case NoteStep(session, note) => NoteKeepsInv(w, session, note);
      case TickStep(seconds) => TickKeepsWorldInv(w, seconds);
    }
  }

  lemma {:induction false} EveryRunKeepsInv(cfg: Config, w: World, steps: seq<Gateway.Step>)
    requires Inv(w)
    ensures Inv(Gateway.Run(cfg, w, steps)) && Grows(w, Gateway.Run(cfg, w, steps))
  {
    hide Inv, Grows, Gateway.Apply;
    GrowsReflexive(w);
    if steps != [] {
      var before := Gateway.Run(cfg, w, steps[..|steps| - 1]);
      EveryRunKeepsInv(cfg, w, steps[..|steps| - 1]);
      StepKeepsInv(cfg, before, steps[|steps| - 1]);
      GrowsTransitive(w, before, Gateway.Run(cfg, w, steps));
    }
  }

  // ---- Safety ----

  /** The gateway before its first call, over seeded grants. */
  predicate Initial(w: World) {
    Seeded(w.store) && w.checks == Checks.EMPTY && w.calls == map[]
  }

  lemma InitialInv(w: World)
    requires Initial(w)
    ensures Inv(w)
  {
    SeededInv(w.store);
    Checks.EveryRunKeepsInv([]);
  }

  /**
   * In every run, an execution is preceded by the consumption of a grant for the same decision, tool and resource, which
   * is preceded by the record of that executable decision; and executions correspond to distinct consumptions.
   */
  lemma EveryExecutionIsBacked(cfg: Config, w: World, steps: seq<Gateway.Step>)
    requires Initial(w)
    ensures SafeLog(Gateway.Run(cfg, w, steps).store.log)
  {
    hide Gateway.Run;
    InitialInv(w);
    EveryRunKeepsInv(cfg, w, steps);
  }

  /**
   * In every run, under any hash, the stored events of every session form one chain with orders 1..n, and they record
   * exactly what the gateway logged for the session.
   */
  lemma EveryRunIsAudited(cfg: Config, w: World, steps: seq<Gateway.Step>, session: string)
    requires Initial(w)
    ensures var appends := AppendsOf(Gateway.Run(cfg, w, steps).store.log);
      && Chain(cfg.sha, History(EventTable(cfg.sha, appends), session))
      && Records(History(EventTable(cfg.sha, appends), session), Sent(appends, session))
  {
    hide Gateway.Run;
    InitialInv(w);
    EveryRunKeepsInv(cfg, w, steps);
    LogIsChained(cfg.sha, Gateway.Run(cfg, w, steps).store.log, session);
  }

  /** How many calls the session executed. */
  function Executions(log: seq<Entry>, session: string): nat {
    if log == [] then 0
    else
      var n := |log| - 1;
      Executions(log[..n], session) + (if log[n].event.CallExecuted? && log[n].session == session then 1 else 0)
  }

  /** The decisions that the session executed, and those that it consumed a grant for. */
  function ExecutedIds(log: seq<Entry>, session: string): (r: set<nat>)
    ensures forall d :: d in r <==> exists k :: 0 <= k < |log| && log[k].event.CallExecuted? && log[k].session == session && log[k].event.decision == d
  {
    set k | 0 <= k < |log| && log[k].event.CallExecuted? && log[k].session == session :: log[k].event.decision
  }

  function ConsumedIds(log: seq<Entry>, session: string): (r: set<nat>)
    ensures forall d :: d in r <==> exists k :: 0 <= k < |log| && log[k].event.GrantConsumed? && log[k].session == session && log[k].event.decision == d
  {
    set k | 0 <= k < |log| && log[k].event.GrantConsumed? && log[k].session == session :: log[k].event.decision
  }

  predicate DistinctExecutions(log: seq<Entry>) {
    forall k, m :: 0 <= k < m < |log| && log[k].event.CallExecuted? && log[m].event.CallExecuted?
      ==> log[k].event.decision != log[m].event.decision
  }

  /** The last execution is not among the earlier ones. */
  lemma LastIsNew(log: seq<Entry>, session: string)
    requires log != [] && DistinctExecutions(log) && log[|log| - 1].event.CallExecuted?
    ensures log[|log| - 1].event.decision !in ExecutedIds(log[..|log| - 1], session)
  {
  }

  lemma ExecutedIdsGrow(log: seq<Entry>, session: string)
    requires log != []
    ensures var n, e := |log| - 1, log[|log| - 1];
      ExecutedIds(log, session)
        == ExecutedIds(log[..n], session) + (if e.event.CallExecuted? && e.session == session then {e.event.decision} else {})
  {
  }

  lemma {:induction false} ExecutedIdsCount(log: seq<Entry>, session: string)
    requires DistinctExecutions(log)
    ensures |ExecutedIds(log, session)| == Executions(log, session)
  {
    hide ExecutedIds;
    if log == [] {
      NoExecutedIds(session);
    } else {
      var n := |log| - 1;
      assert DistinctExecutions(log[..n]);
      ExecutedIdsCount(log[..n], session);
      ExecutedIdsGrow(log, session);
      hide DistinctExecutions;
      if log[n].event.CallExecuted? {
        LastIsNew(log, session);
      }
    }
  }

  lemma NoExecutedIds(session: string)
    ensures ExecutedIds([], session) == {}
  {
  }

  lemma ConsumedIdsGrow(log: seq<Entry>, session: string)
    requires log != []
    ensures var n, e := |log| - 1, log[|log| - 1];
      ConsumedIds(log, session)
        == ConsumedIds(log[..n], session) + (if e.event.GrantConsumed? && e.session == session then {e.event.decision} else {})
  {
  }

  lemma NoConsumedIds(session: string)
    ensures ConsumedIds([], session) == {}
  {
  }

  lemma {:induction false} ConsumedIdsCount(log: seq<Entry>, session: string)
    ensures |ConsumedIds(log, session)| <= SessionUses(log, session)
  {
    hide ConsumedIds;
    if log == [] {
      NoConsumedIds(session);
    } else {
      ConsumedIdsCount(log[..|log| - 1], session);
      ConsumedIdsGrow(log, session);
    }
  }

  lemma SubsetCount(a: set<nat>, b: set<nat>)
    requires a <= b
    ensures |a| <= |b|
  {
    assert b == a + (b - a);
  }

  /** In every run, a session never executes more calls than its grants were issued with. */
  lemma ExecutionsAreBounded(cfg: Config, w: World, steps: seq<Gateway.Step>, session: string)
    requires Initial(w)
    ensures var t := Gateway.Run(cfg, w, steps).store; Executions(t.log, session) <= SessionUses(t.log, session) <= Issued(t.grants, session)
  {
    hide Gateway.Run;
    InitialInv(w);
    EveryRunKeepsInv(cfg, w, steps);
    var t := Gateway.Run(cfg, w, steps).store;
    ExecutedIdsCount(t.log, session);
    ConsumedIdsCount(t.log, session);
    forall d | d in ExecutedIds(t.log, session) ensures d in ConsumedIds(t.log, session) {
      var k :| 0 <= k < |t.log| && t.log[k].event.CallExecuted? && t.log[k].session == session && t.log[k].event.decision == d;
      assert ConsumedBefore(t.log, k, DeedOf(t.log[k]));
    }
    SubsetCount(ExecutedIds(t.log, session), ConsumedIds(t.log, session));
    SessionUsesBounded(t, session);
  }
}
