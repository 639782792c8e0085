/**
 * Decisions, executions and their reasons, over every run of the gateway: each executable decision on record, and so
 * the decision of each execution, was justified by the tables of the very step that recorded it.
 */
module GatewayHistory {
  import opened Wrappers
  import opened Json
  import opened Canonical
  import opened PolicyTable
  import opened PolicyDecide
  import opened PolicyCompile
  import opened GraphFallback
  import opened GatewayContext
  import opened GatewayJustification
  import opened Ledger
  import opened Gateway
  import opened GatewaySafety
  import opened GatewayRecipes
  import opened GatewayReplay
  import Checks = AuthorizationChecks

  function AskOfDeed(x: Deed): Ask {
    Ask(x.session, x.tool, x.resource)
  }

  // ---- Which decisions a step records ----

  /** The names under which the store tells of its own tables, of decisions and of executions. */
  const STORE_NAMES: set<string> := {
    "grant_issued", "grant_consumed", "access_request_created", "access_request_sent", "access_request_approved",
    "anticipated_request_observed_tool_call", "policy_decision_recorded", "downstream_call_executed"}

  /** An event of another kind has another name. */
  predicate OwnName(e: Event) {
    e.Other? ==> e.eventType !in STORE_NAMES
  }

  /** The log grew; every executable decision that is new in it is about one of the asks, and no new name misleads. */
  ghost predicate DecidesAmong(before: seq<Entry>, log: seq<Entry>, asks: iset<Ask>) {
    && before <= log
    && (forall k, x :: |before| <= k < |log| && RecordsDecision(log[k], x) ==> AskOfDeed(x) in asks)
    && (forall k :: |before| <= k < |log| ==> OwnName(log[k].event))
  }

  lemma AmongReflexive(log: seq<Entry>, asks: iset<Ask>)
    ensures DecidesAmong(log, log, asks)
  {
  }

  lemma AmongTransitive(a: seq<Entry>, b: seq<Entry>, c: seq<Entry>, asks: iset<Ask>)
    requires DecidesAmong(a, b, asks) && DecidesAmong(b, c, asks)
    ensures DecidesAmong(a, c, asks)
  {
    hide RecordsDecision, OwnName;
    forall k | |a| <= k < |b| ensures b[k] == c[k] {
    }
  }

  lemma LogAmong(s: Store, session: string, e: Event, asks: iset<Ask>)
    requires OwnName(e) && (e.DecisionRecorded? && Executable(e.verdict) ==> Ask(session, e.tool, e.resource) in asks)
    ensures DecidesAmong(s.log, Log(s, session, e).log, asks)
  {
  }

  lemma {:induction false} LogAllAmong(s: Store, session: string, events: seq<Event>, asks: iset<Ask>)
    requires forall e :: e in events ==> !e.DecisionRecorded? && OwnName(e)
    ensures DecidesAmong(s.log, LogAll(s, session, events).log, asks)
  {
    hide DecidesAmong;
    if events == [] {
      AmongReflexive(s.log, asks);
    } else {
      var before := LogAll(s, session, events[..|events| - 1]);
      LogAllAmong(s, session, events[..|events| - 1], asks);
      LogAmong(before, session, events[|events| - 1], asks);
      AmongTransitive(s.log, before.log, LogAll(s, session, events).log, asks);
    }
  }

  lemma RequestAmong(s: Store, a: RequestArgs, asks: iset<Ask>)
    ensures DecidesAmong(s.log, CreateRequest(s, a).log, asks)
  {
  }

  lemma PredictedIsOwn(p: Prediction, snapshot: nat)
    ensures Predicted(p, snapshot).Other? && OwnName(Predicted(p, snapshot))
  {
  }

  lemma {:induction false} AnticipateAmong(
    s: Store, r: SessionRec, agent: string, snapshot: nat, traces: seq<string>, predictions: seq<Prediction>, asks: iset<Ask>)
    ensures DecidesAmong(s.log, Anticipate(s, r, agent, snapshot, traces, predictions).log, asks)
  {
    hide DecidesAmong, CreateRequest, Log, Predicted, AnticipatedArgs, OwnName;
    if predictions == [] {
      AmongReflexive(s.log, asks);
    } else {
      var n := |predictions| - 1;
      var before := Anticipate(s, r, agent, snapshot, traces, predictions[..n]);
      var logged := Log(before, r.session, Predicted(predictions[n], snapshot));
      AnticipateAmong(s, r, agent, snapshot, traces, predictions[..n], asks);
      PredictedIsOwn(predictions[n], snapshot);
      LogAmong(before, r.session, Predicted(predictions[n], snapshot), asks);
      RequestAmong(logged, AnticipatedArgs(r, agent, predictions[n], traces), asks);
      AmongTransitive(s.log, before.log, logged.log, asks);
      AmongTransitive(s.log, logged.log, Anticipate(s, r, agent, snapshot, traces, predictions).log, asks);
    }
  }

  lemma FollowUpAmong(cfg: Config, w: World, q: Question, p: Picture, ctx: Context, d: PolicyDecision, asks: iset<Ask>)
    ensures DecidesAmong(w.store.log, FollowUp(cfg, w, q, p, ctx, d).store.log, asks)
  {
    hide CreateRequest, RequestFor, RecipeFromPath;
    if d.decision == EscalateHuman {
      RequestAmong(w.store, RequestFor(p, q, ctx, d), asks);
    }
  }

  lemma RecordAmong(cfg: Config, w: World, q: Question, p: Picture, ctx: Context, id: nat, snapshot: nat, asks: iset<Ask>)
    requires id in w.checks.decisions && id in w.checks.checks
    requires Executable(w.checks.decisions[id].decision) ==> AskOfQuestion(q) in asks
    ensures DecidesAmong(w.store.log, Recorded(cfg, w, q, p, ctx, id, snapshot).0.store.log, asks)
  {
    hide DecidesAmong, FollowUp, StateText;
    var d, c, decision := w.checks.decisions[id], w.checks.checks[id], w.store.nextId;
    var e := DecisionRecorded(decision, id, StateText(c.state), d.decision, q.tool, q.resource, snapshot, d.proofHash);
    var recorded := Log(w.store.(nextId := decision + 1), q.session, e);
    LogAmong(w.store.(nextId := decision + 1), q.session, e, asks);
    FollowUpAmong(cfg, w.(store := recorded), q, p, ctx, d, asks);
    AmongTransitive(w.store.log, recorded.log, Recorded(cfg, w, q, p, ctx, id, snapshot).0.store.log, asks);
  }

  /** An executable answer is about one of the asks. */
  predicate AnswerAmong(auth: Option<Auth>, q: Question, asks: iset<Ask>) {
    auth.Some? && Executable(auth.value.verdict) ==> AskOfQuestion(q) in asks
  }

  lemma DecidedAmong(cfg: Config, w: World, s: SessionRec, q: Question, p: Picture, asks: iset<Ask>)
    requires AnswerAmong(Decided(cfg, w, s, q, p).1, q, asks)
    ensures DecidesAmong(w.store.log, Decided(cfg, w, s, q, p).0.store.log, asks)
  {
    hide DecidesAmong, FollowUp, StateText, Evaluated, QuestionContext, IdempotencyKey;
    var ctx := QuestionContext(cfg, w, s, q, p);
    var bumped := w.store.(nextId := w.store.nextId + 1);
    var e := Requested(q, w.store.nextId, IdempotencyKey(cfg.sha, ctx));
    var asked := Log(bumped, q.session, e);
    LogAmong(bumped, q.session, e, asks);
    var (checks, id) := Evaluated(cfg, w.checks, q, ctx);
    if id in checks.decisions && id in checks.checks {
      RecordAmong(cfg, w.(store := asked, checks := checks), q, p, ctx, id, w.store.nextId, asks);
      AmongTransitive(w.store.log, asked.log, Decided(cfg, w, s, q, p).0.store.log, asks);
    }
  }

  lemma AuthorizeAmong(cfg: Config, w: World, q: Question, asks: iset<Ask>)
    requires AnswerAmong(RunAuthorize(cfg, w, q).1, q, asks)
    ensures DecidesAmong(w.store.log, RunAuthorize(cfg, w, q).0.store.log, asks)
  {
    hide DecidesAmong, Decided, Look, Prepared, AnswerAmong, FindSession;
    AmongReflexive(w.store.log, asks);
    var s := FindSession(cfg.catalog, q.session);
    if s.Some? && q.agentActive && s.value.agent == q.agent {
      var ready := Prepared(cfg, w, s.value);
      PreparedSaves(cfg, w, s.value);
      var look := Look(ready.graph, q.session, q.tool, q.resource, ready.store.now, cfg.parse);
      if look.Ok? {
        DecidedAmong(cfg, ready, s.value, q, look.value, asks);
      }
    }
  }

  lemma AnnouncedAmong(w: World, q: Question, asks: iset<Ask>)
    ensures DecidesAmong(w.store.log, Announced(w, q).store.log, asks)
  {
    hide EarliestUnseen;
  }

  lemma BeginAmong(cfg: Config, w: World, q: Question, asks: iset<Ask>)
    requires AnswerAmong(RunAuthorize(cfg, Announced(w, q), q).1, q, asks)
    ensures DecidesAmong(w.store.log, BeginCall(cfg, w, q).0.store.log, asks)
  {
    hide DecidesAmong, RunAuthorize, Announced, AnswerAmong;
    var w0 := Announced(w, q);
    AnnouncedAmong(w, q, asks);
    AuthorizeAmong(cfg, w0, q, asks);
    var (w1, auth) := RunAuthorize(cfg, w0, q);
    AmongTransitive(w.store.log, w0.store.log, w1.store.log, asks);
    if auth.Some? && !Executable(auth.value.verdict) {
      LogAmong(w1.store, q.session, DenialReturned(q, auth.value), asks);
      AmongTransitive(w.store.log, w1.store.log, BeginCall(cfg, w, q).0.store.log, asks);
    }
  }

  lemma PreflightAmong(
    cfg: Config, w: World, session: string, agent: string, agentActive: bool, predictions: seq<Prediction>, asks: iset<Ask>)
    ensures DecidesAmong(w.store.log, RunPreflight(cfg, w, session, agent, agentActive, predictions).store.log, asks)
  {
    hide DecidesAmong, Anticipate, HitRecipes, PreflightOpened, FindSession;
    AmongReflexive(w.store.log, asks);
    var s := FindSession(cfg.catalog, session);
    if s.Some? && agentActive && s.value.agent == agent {
      var (started, snapshot, hits) := PreflightOpened(cfg, w, s.value, agent);
      OpeningAmong(cfg, w, s.value, agent, asks);
      AnticipateAmong(started.store, s.value, agent, snapshot, HitRecipes(hits), predictions, asks);
      AmongTransitive(w.store.log, started.store.log,
                      RunPreflight(cfg, w, session, agent, agentActive, predictions).store.log, asks);
    }
  }

  lemma OpeningAmong(cfg: Config, w: World, s: SessionRec, agent: string, asks: iset<Ask>)
    ensures DecidesAmong(w.store.log, PreflightOpened(cfg, w, s, agent).0.store.log, asks)
  {
    hide HitsFor, SaveHits;
  }

  lemma ExecutionAmong(s: Store, c: Call, payload: Value, asks: iset<Ask>)
    ensures DecidesAmong(s.log, LogExecution(s, c, payload).log, asks)
  {
    hide RedactedFields, TextAt;
  }

  lemma ExecuteAmong(cfg: Config, w: World, d: nat, o: Outside, asks: iset<Ask>)
    ensures DecidesAmong(w.store.log, ExecuteForCall(cfg, w, d, o).store.log, asks)
  {
    hide DecidesAmong, LogAll, GrantScope, LeaseUsed, LeaseTrail, LogExecution, Checks.PassesAssertExecutable;
    AmongReflexive(w.store.log, asks);
    if d in w.calls && w.calls[d].grant.Some? {
      var c := w.calls[d];
      var scope := GrantScope(w.store.grants, c.grant.value);
      var leased := LogAll(w.store, c.session, LeaseTrail(cfg, c, scope, o));
      TrailDecidesNothing(cfg, c, scope, o);
      LogAllAmong(w.store, c.session, LeaseTrail(cfg, c, scope, o), asks);
      if o.payload.Some? {
        ExecutionAmong(leased, c, o.payload.value, asks);
        AmongTransitive(w.store.log, leased.log, LogExecution(leased, c, o.payload.value).log, asks);
      }
    }
  }

  lemma LeaseEventsAreOwn(c: Call)
    ensures OwnName(LeaseEvent(c, "credential_binding_selected")) && OwnName(LeaseEvent(c, "credential_lease_blocked"))
    ensures OwnName(LeaseEvent(c, "credential_lease_minted")) && OwnName(LeaseEvent(c, "credential_injected_by_gateway"))
    ensures OwnName(LeaseEvent(c, "credential_provider_resolution_failed"))
  {
  }

  lemma TrailDecidesNothing(cfg: Config, c: Call, scope: string, o: Outside)
    ensures forall e :: e in LeaseTrail(cfg, c, scope, o) ==> !e.DecisionRecorded? && OwnName(e)
  {
    hide FindBinding, LeaseRequest, OwnName;
    LeaseEventsAreOwn(c);
  }

  lemma ConsumeAmong(cfg: Config, w: World, d: nat, tie: nat, asks: iset<Ask>)
    ensures DecidesAmong(w.store.log, ConsumeForCall(cfg, w, d, tie).store.log, asks)
  {
    hide Select;
  }

  lemma ApproveAmong(cfg: Config, w: World, request: nat, approver: string, asks: iset<Ask>)
    ensures DecidesAmong(w.store.log, Approve(cfg, w, request, approver).store.log, asks)
  {
    hide RequestIndex, RequestText;
  }

  // ---- Every step ----

  /** An announcement changes nothing that the graph shows. */
  lemma AnnouncedJustifies(cfg: Config, w: World, q: Question, a: Ask)
    requires JustifiedIn(cfg, Announced(w, q), a)
    ensures JustifiedIn(cfg, w, a)
  {
    hide Look, Justified, Announced, FindSession, Prepared;
    AnnouncedKeeps(w, q);
    var s, p :| JustifiedBy(cfg, Announced(w, q), a, s, p);
    PreparedSaves(cfg, w, s);
    PreparedSaves(cfg, Announced(w, q), s);
    assert Prepared(cfg, w, s).graph == Prepared(cfg, Announced(w, q), s).graph;
    assert JustifiedBy(cfg, w, a, s, p);
  }

  /** A tool call is answered under the tables as they were before its announcement. */
  lemma BegunIsJustified(cfg: Config, w: World, q: Question)
    requires Ready(cfg, w)
    ensures ChecksBacked(cfg, BeginCall(cfg, w, q).0.checks)
    ensures AnswerAmong(RunAuthorize(cfg, Announced(w, q), q).1, q, Justifieds(cfg, w))
  {
    hide ChecksBacked, Checks.Inv, RowsAreHits, DistinctRecipes, RunAuthorize, Announced, JustifiedIn;
    AnnouncedKeeps(w, q);
    ExecutableAnswerIsJustified(cfg, Announced(w, q), q);
    if AnswersExecutably(cfg, Announced(w, q), q) {
      AnnouncedJustifies(cfg, w, q, AskOfQuestion(q));
    }
  }

  lemma AskedIsJustified(cfg: Config, w: World, q: Question)
    requires Ready(cfg, w)
    ensures ChecksBacked(cfg, RunAuthorize(cfg, w, q).0.checks)
    ensures AnswerAmong(RunAuthorize(cfg, w, q).1, q, Justifieds(cfg, w))
  {
    hide ChecksBacked, Ready, RunAuthorize, JustifiedIn;
    ExecutableAnswerIsJustified(cfg, w, q);
  }

  /** The asks that the tables of this world justify. */
  ghost function Justifieds(cfg: Config, w: World): iset<Ask> {
    iset a | JustifiedIn(cfg, w, a)
  }

  /** The answer that a step may give is about one of the asks. */
  predicate StepAnswersAmong(cfg: Config, w: World, step: Step, asks: iset<Ask>) {
    hide RunAuthorize, Announced, AnswerAmong;
    match step
    case RequestScopeStep(q) => AnswerAmong(RunAuthorize(cfg, w, q).1, q, asks)
    case BeginStep(q) => AnswerAmong(RunAuthorize(cfg, Announced(w, q), q).1, q, asks)
    case _ => true
  }

  lemma StepAmong(cfg: Config, w: World, step: Step, asks: iset<Ask>)
    requires StepAnswersAmong(cfg, w, step, asks)
    ensures DecidesAmong(w.store.log, Apply(cfg, w, step).store.log, asks)
  {
    hide DecidesAmong, RunPreflight, RunAuthorize, BeginCall, ConsumeForCall, ExecuteForCall, Approve, AnswerAmong, Announced, OwnName;
    match step {
      case PreflightStep(session, agent, agentActive, predictions) =>
        PreflightAmong(cfg, w, session, agent, agentActive, predictions, asks);
      case RequestScopeStep(q) => AuthorizeAmong(cfg, w, q, asks);
      case BeginStep(q) => BeginAmong(cfg, w, q, asks);
      case ConsumeStep(call, tie) => ConsumeAmong(cfg, w, call, tie, asks);
      case ExecuteStep(call, outside) => ExecuteAmong(cfg, w, call, outside, asks);
      case ApproveStep(request, approver) => ApproveAmong(cfg, w, request, approver, asks);
      case NoteStep(session, note) =>
        NoteIsOwn(note);
        LogAmong(w.store, session, NoteEvent(note), asks);
      case TickStep(seconds) => AmongReflexive(w.store.log, asks);
    }
  }

  lemma NoteIsOwn(note: Note)
    ensures NoteEvent(note).Other? && OwnName(NoteEvent(note))
  {
  }

  /** A step leaves the checks backed, and records executable decisions only for asks that the tables justify. */
  lemma StepDecides(cfg: Config, w: World, step: Step)
    requires Ready(cfg, w)
    ensures ChecksBacked(cfg, Apply(cfg, w, step).checks)
    ensures DecidesAmong(w.store.log, Apply(cfg, w, step).store.log, Justifieds(cfg, w))
  {
    hide Ready, ChecksBacked, DecidesAmong, Justifieds, RunPreflight, RunAuthorize, BeginCall, ConsumeForCall, ExecuteForCall,
         Approve, AnswerAmong, Announced;
    ReadyChecks(cfg, w);
    match step {
      case PreflightStep(session, agent, agentActive, predictions) =>
        PreflightKeepsChecks(cfg, w, session, agent, agentActive, predictions);
      case RequestScopeStep(q) => AskedIsJustified(cfg, w, q);
      case BeginStep(q) => BegunIsJustified(cfg, w, q);
      case ConsumeStep(call, tie) => ConsumeKeepsChecks(cfg, w, call, tie);
      case ExecuteStep(call, outside) => ExecuteKeepsChecks(cfg, w, call, outside);
      case ApproveStep(request, approver) => ApproveKeepsChecks(cfg, w, request, approver);
      case NoteStep(session, note) =>
      case TickStep(seconds) => TickKeepsBacked(cfg, w.checks, seconds);
    }
    StepAmong(cfg, w, step, Justifieds(cfg, w));
  }

  lemma ReadyChecks(cfg: Config, w: World)
    requires Ready(cfg, w)
    ensures ChecksBacked(cfg, w.checks)
  {
  }

  lemma TickKeepsBacked(cfg: Config, s: Checks.Service, seconds: nat)
    requires ChecksBacked(cfg, s)
    ensures ChecksBacked(cfg, s.(now := s.now + seconds))
  {
    hide Reasoned, FitsTree;
    var t := s.(now := s.now + seconds);
    forall id | id in t.checks ensures Backed(cfg, t, id) {
      assert Backed(cfg, s, id);
    }
  }

  lemma PreflightKeepsChecks(cfg: Config, w: World, session: string, agent: string, agentActive: bool, predictions: seq<Prediction>)
    ensures RunPreflight(cfg, w, session, agent, agentActive, predictions).checks == w.checks
  {
    hide Anticipate, SaveHits, HitsFor, PreflightAsked, PreflightDone;
  }

  lemma ConsumeKeepsChecks(cfg: Config, w: World, d: nat, tie: nat)
    ensures ConsumeForCall(cfg, w, d, tie).checks == w.checks
  {
    hide Consume;
  }

  lemma ExecuteKeepsChecks(cfg: Config, w: World, d: nat, o: Outside)
    ensures ExecuteForCall(cfg, w, d, o).checks == w.checks
  {
    hide LogAll, LogExecution, LeaseTrail, LeaseUsed;
  }

  lemma ApproveKeepsChecks(cfg: Config, w: World, request: nat, approver: string)
    ensures Approve(cfg, w, request, approver).checks == w.checks
  {
    hide ApproveRequest;
  }

  // ---- Names ----

  /** No entry of the log has a name that belongs to another kind of event. */
  ghost predicate OwnNames(log: seq<Entry>) {
    forall k :: 0 <= k < |log| ==> OwnName(log[k].event)
  }

  lemma NamesAmong(before: seq<Entry>, log: seq<Entry>, asks: iset<Ask>)
    requires OwnNames(before) && DecidesAmong(before, log, asks)
    ensures OwnNames(log)
  {
    hide OwnName, RecordsDecision;
    forall k | 0 <= k < |log| ensures OwnName(log[k].event) {
      if k < |before| {
        assert log[k] == before[k];
      }
    }
  }

  lemma StepKeepsNames(cfg: Config, w: World, step: Step)
    requires OwnNames(w.store.log)
    ensures OwnNames(Apply(cfg, w, step).store.log)
  {
    hide Apply, OwnNames, DecidesAmong, StepAnswersAmong;
    var asks := iset a: Ask | |a.session| >= 0;
    EveryAskIsAmong(cfg, w, step, asks);
    StepAmong(cfg, w, step, asks);
    NamesAmong(w.store.log, Apply(cfg, w, step).store.log, asks);
  }

  lemma EveryAskIsAmong(cfg: Config, w: World, step: Step, asks: iset<Ask>)
    requires forall a :: a in asks
    ensures StepAnswersAmong(cfg, w, step, asks)
  {
    hide RunAuthorize, Announced;
  }

  lemma {:induction false} EveryRunKeepsNames(cfg: Config, w: World, steps: seq<Step>)
    requires OwnNames(w.store.log)
    ensures OwnNames(Run(cfg, w, steps).store.log)
  {
    hide OwnNames, Apply;
    if steps != [] {
      var n := |steps| - 1;
      EveryRunKeepsNames(cfg, w, steps[..n]);
      StepKeepsNames(cfg, Run(cfg, w, steps[..n]), steps[n]);
    }
  }

  // ---- Every run ----

  /** The gateway before its first call, over seeded grants, a catalog with one row a recipe, and no similarity rows but hits. */
  ghost predicate Start(cfg: Config, w: World) {
    PerfectHash(cfg.sha) && Initial(w) && DistinctRecipes(cfg.catalog.recipes) && RowsAreHits(cfg.catalog, w.similarity)
  }

  lemma StartIsReady(cfg: Config, w: World)
    requires Start(cfg, w)
    ensures Ready(cfg, w)
  {
    InitialInv(w);
  }

  lemma {:induction false} EveryRunIsReady(cfg: Config, start: World, steps: seq<Step>)
    requires Start(cfg, start)
    ensures Ready(cfg, Run(cfg, start, steps))
  {
    hide ChecksBacked, Checks.Inv, RowsAreHits, DistinctRecipes, Initial, Apply, Inv, DecidesAmong;
    StartIsReady(cfg, start);
    InitialInv(start);
    EveryRunStoresHits(cfg, start, steps);
    EveryRunKeepsInv(cfg, start, steps);
    InOrder(Run(cfg, start, steps));
    if steps != [] {
      var n := |steps| - 1;
      EveryRunIsReady(cfg, start, steps[..n]);
      StepDecides(cfg, Run(cfg, start, steps[..n]), steps[n]);
    }
  }

  lemma InOrder(w: World)
    requires Inv(w)
    ensures Checks.Inv(w.checks)
  {
  }

  /** Among the entries that the log gained, there is an executable decision for the deed. */
  ghost predicate DecidedSince(before: seq<Entry>, log: seq<Entry>, x: Deed) {
    exists k :: |before| <= k < |log| && RecordsDecision(log[k], x)
  }

  /** Between the two worlds an executable decision for the deed was recorded, and the first of them justifies it. */
  ghost predicate DecidedIn(cfg: Config, w: World, after: World, x: Deed) {
    hide JustifiedIn;
    DecidedSince(w.store.log, after.store.log, x) && JustifiedIn(cfg, w, AskOfDeed(x))
  }

  /** Some step of the run recorded the decision, and the world before that step justifies it. */
  ghost predicate WasJustified(cfg: Config, start: World, steps: seq<Step>, x: Deed) {
    hide Run, DecidedIn;
    exists n: nat :: n < |steps| && DecidedIn(cfg, Run(cfg, start, steps[..n]), Run(cfg, start, steps[..n + 1]), x)
  }

  lemma LongerRun(cfg: Config, start: World, before: seq<Step>, last: Step, x: Deed)
    requires WasJustified(cfg, start, before, x)
    ensures WasJustified(cfg, start, before + [last], x)
  {
    hide Run, DecidedIn;
    var steps := before + [last];
    var n: nat :| n < |before| && DecidedIn(cfg, Run(cfg, start, before[..n]), Run(cfg, start, before[..n + 1]), x);
    assert before[..n] == steps[..n] && before[..n + 1] == steps[..n + 1];
  }

  lemma LastStep(cfg: Config, start: World, before: seq<Step>, last: Step, x: Deed)
    requires DecidedIn(cfg, Run(cfg, start, before), Run(cfg, start, before + [last]), x)
    ensures WasJustified(cfg, start, before + [last], x)
  {
    hide Run, DecidedIn;
    var steps := before + [last];
    assert steps[..|before|] == before && steps[..|before| + 1] == steps;
  }

  lemma DecidedNow(cfg: Config, w: World, after: World, k: nat, x: Deed)
    requires DecidesAmong(w.store.log, after.store.log, Justifieds(cfg, w))
    requires |w.store.log| <= k < |after.store.log| && RecordsDecision(after.store.log[k], x)
    ensures DecidedIn(cfg, w, after, x)
  {
    hide JustifiedIn, RecordsDecision;
    assert AskOfDeed(x) in Justifieds(cfg, w);
  }

  /**
   * In every run, each executable decision on record was justified in the world before the step that recorded it,
   * replays included: the session was delegated, a recipe of the catalog predicted the tool, and a live grant or an
   * auto-approved scope covered it.
   */
  lemma {:induction false} EveryDecisionWasJustified(cfg: Config, start: World, steps: seq<Step>, e: Entry, x: Deed)
    requires Start(cfg, start)
    requires e in Run(cfg, start, steps).store.log && RecordsDecision(e, x)
    ensures WasJustified(cfg, start, steps, x)
  {
    hide Start, Apply, Ready, ChecksBacked, RecordsDecision, WasJustified, DecidedIn;
    if steps == [] {
      StartIsSilent(cfg, start);
    } else {
      var before, last := steps[..|steps| - 1], steps[|steps| - 1];
      assert before + [last] == steps;
      var w := Run(cfg, start, before);
      EveryRunIsReady(cfg, start, before);
      StepDecides(cfg, w, last);
      if e in w.store.log {
        EveryDecisionWasJustified(cfg, start, before, e, x);
        LongerRun(cfg, start, before, last, x);
      } else {
        var log := Run(cfg, start, steps).store.log;
        var k :| 0 <= k < |log| && log[k] == e;
        DecidedNow(cfg, w, Run(cfg, start, steps), k, x);
        LastStep(cfg, start, before, last, x);
      }
    }
  }

  lemma StartIsSilent(cfg: Config, w: World)
    requires Start(cfg, w)
    ensures w.store.log == []
  {
  }

  /** If the entry tells of an execution, its decision was justified by the tables of the step that recorded it. */
  ghost predicate ExecutionJustified(cfg: Config, start: World, steps: seq<Step>, e: Entry) {
    hide WasJustified;
    e.event.CallExecuted? ==> WasJustified(cfg, start, steps, DeedOf(e))
  }

  /**
   * In every run, whatever executes does so on a decision that was justified in the world before the step that recorded
   * it, even when the answer was replayed from an older check.
   */
  lemma EveryExecutionWasJustified(cfg: Config, start: World, steps: seq<Step>)
    requires Start(cfg, start)
    ensures forall e :: e in Run(cfg, start, steps).store.log ==> ExecutionJustified(cfg, start, steps, e)
  {
    hide Run, WasJustified, Start;
    var log := Run(cfg, start, steps).store.log;
    assert SafeLog(log) by {
      StartIsInitial(cfg, start);
      EveryExecutionIsBacked(cfg, start, steps);
    }
    forall e | e in log && e.event.CallExecuted? ensures WasJustified(cfg, start, steps, DeedOf(e)) {
      var d := DecisionBehind(log, e);
      EveryDecisionWasJustified(cfg, start, steps, d, DeedOf(e));
    }
  }

  lemma StartIsInitial(cfg: Config, w: World)
    requires Start(cfg, w)
    ensures Initial(w)
  {
  }

  lemma DecisionBehind(log: seq<Entry>, e: Entry) returns (d: Entry)
    requires SafeLog(log) && e in log && e.event.CallExecuted?
    ensures d in log && RecordsDecision(d, DeedOf(e))
  {
    hide RecordsDecision, ConsumesFor;
    var k :| 0 <= k < |log| && log[k] == e;
    assert ConsumedBefore(log, k, DeedOf(e));
    var j :| 0 <= j < k && j < |log| && ConsumesFor(log[j], DeedOf(e)) && DecidedBefore(log, j, DeedOf(e));
    var i :| 0 <= i < j && i < |log| && RecordsDecision(log[i], DeedOf(e));
    d := log[i];
  }
}
