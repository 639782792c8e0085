/** How long an answer of the gateway may take: over every run, no check becomes executable after its quarter of an hour. */
module GatewayTimes {
  import opened Wrappers
  import opened PolicyCompile
  import opened PolicyDecide
  import opened GraphFallback
  import opened GatewayContext
  import opened Ledger
  import opened Gateway
  import opened GatewaySafety
  import opened GatewayRecipes
  import opened GatewayReplay
  import opened GatewayHistory
  import Checks = AuthorizationChecks
  import Life = CheckLifecycle

  /** Every check lives for a quarter of an hour, and if it is executable, it became so within that time. */
  ghost predicate OnTime(s: Checks.Service) {
    forall id :: id in s.checks ==> CheckOnTime(s.checks[id], s.now)
  }

  predicate CheckOnTime(c: Checks.Check, now: nat) {
    && c.expiresAt == c.createdAt + 900 && c.createdAt <= c.updatedAt <= now
    && (Life.MayExecute(c) ==> c.updatedAt < c.createdAt + 900)
  }

  lemma EvaluatedOnTime(
    s: Checks.Service, session: string, tool: string, resource: string, key: string, decided: Result<PolicyDecision>)
    requires Checks.Inv(s) && OnTime(s)
    ensures OnTime(Checks.EvaluateCheck(s, session, tool, resource, key, 900, decided).0)
  {
    hide Checks.Inv, Checks.EvaluateCheck;
    if (session, key) in s.index {
      Life.EvaluateKnown(s, session, tool, resource, key, 900, decided);
    } else {
      Life.EvaluateNew(s, session, tool, resource, key, 900, decided);
    }
  }

  lemma AnswerOnTime(cfg: Config, checks: Checks.Service, q: Question, ctx: Context)
    requires Checks.Inv(checks) && OnTime(checks)
    ensures OnTime(Evaluated(cfg, checks, q, ctx).0)
  {
    hide Checks.Inv, OnTime, Checks.EvaluateCheck, IdempotencyKey, Decide;
    var decided := if q.engineUp then Decide(cfg.sha, cfg.thresholds, ctx) else Err("policy engine unavailable");
    EvaluatedOnTime(checks, q.session, q.tool, q.resource, IdempotencyKey(cfg.sha, ctx), decided);
  }

  lemma AuthorizeOnTime(cfg: Config, w: World, q: Question)
    requires Checks.Inv(w.checks) && OnTime(w.checks)
    ensures OnTime(RunAuthorize(cfg, w, q).0.checks)
  {
    hide Checks.Inv, OnTime, Look, Decided, Prepared, QuestionContext, FindSession, Evaluated;
    var s := FindSession(cfg.catalog, q.session);
    if s.Some? && q.agentActive && s.value.agent == q.agent {
      var ready := Prepared(cfg, w, s.value);
      PreparedSaves(cfg, w, s.value);
      var look := Look(ready.graph, q.session, q.tool, q.resource, ready.store.now, cfg.parse);
      if look.Ok? {
        var ctx := QuestionContext(cfg, ready, s.value, q, look.value);
        RecordedChecks(cfg, ready, s.value, q, look.value, ctx);
        AnswerOnTime(cfg, ready.checks, q, ctx);
      }
    }
  }

  lemma StepOnTime(cfg: Config, w: World, step: Step)
    requires Checks.Inv(w.checks) && OnTime(w.checks)
    ensures OnTime(Apply(cfg, w, step).checks)
  {
    hide Checks.Inv, OnTime, RunPreflight, RunAuthorize, BeginCall, ConsumeForCall, ExecuteForCall, Approve, Announced;
    match step {
      case PreflightStep(session, agent, agentActive, predictions) =>
        PreflightKeepsChecks(cfg, w, session, agent, agentActive, predictions);
      case RequestScopeStep(q) => AuthorizeOnTime(cfg, w, q);
      case BeginStep(q) =>
        AnnouncedKeeps(w, q);
        AuthorizeOnTime(cfg, Announced(w, q), q);
        BeginKeepsAnswer(cfg, w, q);
      case ConsumeStep(call, tie) => ConsumeKeepsChecks(cfg, w, call, tie);
      case ExecuteStep(call, outside) => ExecuteKeepsChecks(cfg, w, call, outside);
      case ApproveStep(request, approver) => ApproveKeepsChecks(cfg, w, request, approver);
      case NoteStep(session, note) =>
      case TickStep(seconds) => TickOnTime(w.checks, seconds);
    }
  }

  lemma BeginKeepsAnswer(cfg: Config, w: World, q: Question)
    ensures BeginCall(cfg, w, q).0.checks == RunAuthorize(cfg, Announced(w, q), q).0.checks
  {
    hide RunAuthorize, Announced;
  }

  lemma TickOnTime(s: Checks.Service, seconds: nat)
    requires OnTime(s)
    ensures OnTime(s.(now := s.now + seconds))
  {
  }

  lemma {:induction false} EveryRunIsOnTime(cfg: Config, w: World, steps: seq<Step>)
    requires GatewaySafety.Inv(w) && OnTime(w.checks)
    ensures OnTime(Run(cfg, w, steps).checks)
  {
    hide GatewaySafety.Inv, OnTime, Apply, Grows;
    if steps != [] {
      var n := |steps| - 1;
      EveryRunIsOnTime(cfg, w, steps[..n]);
      EveryRunKeepsInv(cfg, w, steps[..n]);
      ChecksInOrder(Run(cfg, w, steps[..n]));
      StepOnTime(cfg, Run(cfg, w, steps[..n]), steps[n]);
    }
  }

  lemma ChecksInOrder(w: World)
    requires GatewaySafety.Inv(w)
    ensures Checks.Inv(w.checks)
  {
  }

  /** In every run of the gateway, a check that is executable became so less than fifteen minutes after it was created. */
  lemma EveryApprovalIsOnTime(cfg: Config, start: World, steps: seq<Step>)
    requires Initial(start)
    ensures OnTime(Run(cfg, start, steps).checks)
  {
    hide Run, OnTime;
    InitialInv(start);
    assert OnTime(start.checks) by {
      NothingIsLate();
    }
    EveryRunIsOnTime(cfg, start, steps);
  }

  lemma NothingIsLate()
    ensures OnTime(Checks.EMPTY)
  {
  }

  // ---- Clocks ----

  function Seconds(step: Step): int {
    if step.TickStep? then step.seconds else 0
  }

  /** The seconds that pass in a run. */
  function Elapsed(steps: seq<Step>): int {
    if steps == [] then 0 else Elapsed(steps[..|steps| - 1]) + Seconds(steps[|steps| - 1])
  }

  predicate Later(w: World, t: World, seconds: int) {
    t.store.now == w.store.now + seconds && t.checks.now == w.checks.now + seconds
  }

  lemma {:induction false} AnticipateKeepsTime(
    s: Store, rec: SessionRec, agent: string, snapshot: nat, traces: seq<string>, predictions: seq<Prediction>)
    ensures Anticipate(s, rec, agent, snapshot, traces, predictions).now == s.now
  {
    hide AnticipatedArgs, Predicted, PendingIndex, Refreshed;
    if predictions != [] {
      AnticipateKeepsTime(s, rec, agent, snapshot, traces, predictions[..|predictions| - 1]);
    }
  }

  lemma PreflightKeepsTime(cfg: Config, w: World, session: string, agent: string, agentActive: bool, predictions: seq<Prediction>)
    ensures RunPreflight(cfg, w, session, agent, agentActive, predictions).store.now == w.store.now
  {
    hide Anticipate, SaveHits, HitsFor, PreflightAsked, PreflightDone, FindSession;
    var s := FindSession(cfg.catalog, session);
    if s.Some? && agentActive && s.value.agent == agent {
      var (started, snapshot, hits) := PreflightOpened(cfg, w, s.value, agent);
      AnticipateKeepsTime(started.store, s.value, agent, snapshot, HitRecipes(hits), predictions);
    }
  }

  lemma DecidedKeepsTime(cfg: Config, w: World, s: SessionRec, q: Question, p: Picture)
    ensures Decided(cfg, w, s, q, p).0.store.now == w.store.now
  {
    hide Evaluated, QuestionContext, IdempotencyKey, Requested, PendingIndex, Refreshed, RequestFor, StateText;
  }

  lemma EvaluatedKeepsTime(cfg: Config, checks: Checks.Service, q: Question, ctx: Context)
    ensures Evaluated(cfg, checks, q, ctx).0.now == checks.now
  {
    hide IdempotencyKey, Decide;
  }

  lemma AuthorizeKeepsTime(cfg: Config, w: World, q: Question)
    ensures Later(w, RunAuthorize(cfg, w, q).0, 0)
  {
    hide Look, Decided, Prepared, QuestionContext, FindSession, Evaluated;
    var s := FindSession(cfg.catalog, q.session);
    if s.Some? && q.agentActive && s.value.agent == q.agent {
      var ready := Prepared(cfg, w, s.value);
      PreparedSaves(cfg, w, s.value);
      var look := Look(ready.graph, q.session, q.tool, q.resource, ready.store.now, cfg.parse);
      if look.Ok? {
        var ctx := QuestionContext(cfg, ready, s.value, q, look.value);
        RecordedChecks(cfg, ready, s.value, q, look.value, ctx);
        EvaluatedKeepsTime(cfg, ready.checks, q, ctx);
        DecidedKeepsTime(cfg, ready, s.value, q, look.value);
      }
    }
  }

  lemma BeginKeepsTime(cfg: Config, w: World, q: Question)
    ensures Later(w, BeginCall(cfg, w, q).0, 0)
  {
    hide RunAuthorize, EarliestUnseen, HookChecked, CallRequested, DenialReturned;
    AuthorizeKeepsTime(cfg, Announced(w, q), q);
  }

  lemma {:induction false} LogAllKeepsTime(s: Store, session: string, events: seq<Event>)
    ensures LogAll(s, session, events).now == s.now
  {
    if events != [] {
      LogAllKeepsTime(s, session, events[..|events| - 1]);
    }
  }

  lemma ConsumeKeepsTime(cfg: Config, w: World, d: nat, tie: nat)
    ensures Later(w, ConsumeForCall(cfg, w, d, tie), 0)
  {
    hide Select;
  }

  lemma ExecuteKeepsTime(cfg: Config, w: World, d: nat, o: Outside)
    ensures Later(w, ExecuteForCall(cfg, w, d, o), 0)
  {
    hide LogAll, LeaseTrail, LeaseUsed, GrantScope, RedactedFields, Executed, OutputRedacted;
    if d in w.calls && w.calls[d].grant.Some? {
      LogAllKeepsTime(w.store, w.calls[d].session, LeaseTrail(cfg, w.calls[d], GrantScope(w.store.grants, w.calls[d].grant.value), o));
    }
  }

  lemma ApproveKeepsTime(cfg: Config, w: World, request: nat, approver: string)
    ensures Later(w, Approve(cfg, w, request, approver), 0)
  {
  }

  lemma StepTakesItsTime(cfg: Config, w: World, step: Step)
    ensures Later(w, Apply(cfg, w, step), Seconds(step))
  {
    hide RunPreflight, RunAuthorize, BeginCall, ConsumeForCall, ExecuteForCall, Approve;
    match step {
      case PreflightStep(session, agent, agentActive, predictions) =>
        PreflightKeepsChecks(cfg, w, session, agent, agentActive, predictions);
        PreflightKeepsTime(cfg, w, session, agent, agentActive, predictions);
      case RequestScopeStep(q) => AuthorizeKeepsTime(cfg, w, q);
      case BeginStep(q) => BeginKeepsTime(cfg, w, q);
      case ConsumeStep(call, tie) => ConsumeKeepsTime(cfg, w, call, tie);
      case ExecuteStep(call, outside) => ExecuteKeepsTime(cfg, w, call, outside);
      case ApproveStep(request, approver) => ApproveKeepsTime(cfg, w, request, approver);
      case NoteStep(session, note) =>
      case TickStep(seconds) =>
    }
  }

  /** Only waiting takes time, and it takes the store and the checks the same time. */
  lemma {:induction false} ClocksRunTogether(cfg: Config, w: World, steps: seq<Step>)
    ensures Later(w, Run(cfg, w, steps), Elapsed(steps))
  {
    hide Apply;
    if steps != [] {
      var n := |steps| - 1;
      ClocksRunTogether(cfg, w, steps[..n]);
      StepTakesItsTime(cfg, Run(cfg, w, steps[..n]), steps[n]);
    }
  }
}
