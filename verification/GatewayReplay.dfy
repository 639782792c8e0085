/**
 * Answers and their reasons: an executable answer of the gateway, also one that is replayed from an older check, is
 * justified by the tables as they are when the question is asked.
 */
module GatewayReplay {
  import opened Wrappers
  import opened Json
  import opened Canonical
  import opened PolicyTable
  import opened PolicyRows
  import opened PolicyTheorems
  import opened PolicyCompile
  import opened PolicyDecide
  import opened GraphFallback
  import opened GatewayContext
  import opened GatewayExecutes
  import opened GatewayJustification
  import opened Ledger
  import opened Gateway
  import opened GatewayRecipes
  import Approval = GatewayApproval
  import Checks = AuthorizationChecks

  /** A session asks to use a tool on a resource. */
  datatype Ask = Ask(session: string, tool: string, resource: string)

  function AskOfCheck(c: Checks.Check): Ask {
    Ask(c.session, c.tool, c.resource)
  }

  function AskOfQuestion(q: Question): Ask {
    Ask(q.session, q.tool, q.resource)
  }

  // ---- Justified ----

  /** What the gateway looks up for the ask in this world justifies it. */
  ghost predicate JustifiedBy(cfg: Config, w: World, a: Ask, s: SessionRec, p: Picture) {
    && FindSession(cfg.catalog, a.session) == Some(s)
    && Look(Prepared(cfg, w, s).graph, a.session, a.tool, a.resource, w.store.now, cfg.parse) == Ok(p)
    && Justified(Prepared(cfg, w, s).graph, p, a.session, a.tool, a.resource, w.store.now)
  }

  ghost predicate JustifiedIn(cfg: Config, w: World, a: Ask) {
    exists s, p :: JustifiedBy(cfg, w, a, s, p)
  }

  /** What the catalog shows for the ask lets it run, with or without a grant. */
  predicate Reasoned(cfg: Config, a: Ask, granted: bool) {
    hide SearchedPicture, Runs, FindSession;
    var s := FindSession(cfg.catalog, a.session);
    s.Some?
    && var p := SearchedPicture(cfg, s.value, a.tool, a.resource, granted);
       p.Ok? && Runs(p.value, a.session, a.tool, a.resource, cfg.thresholds)
  }

  // ---- Backed checks ----

  predicate FitsTree(sha: Value -> string, c: Checks.Check, ctx: Context, scope: Value, granted: bool) {
    ctx.toolId == c.tool && ctx.resourceId == c.resource && c.key == StableHash(sha, KeyTree(ctx, scope, Bool(granted)))
  }

  predicate DecidedExecutably(s: Checks.Service, id: nat) {
    id in s.decisions && Executable(s.decisions[id].decision)
  }

  /**
   * The key of the check is that of a question about its tool and resource; if the check is decided executably, the
   * catalog lets the question run under the grant flag of the key.
   */
  ghost predicate Backed(cfg: Config, s: Checks.Service, id: nat)
    requires id in s.checks
  {
    hide Reasoned, FitsTree;
    exists ctx, scope, granted ::
      FitsTree(cfg.sha, s.checks[id], ctx, scope, granted) && (DecidedExecutably(s, id) ==> Reasoned(cfg, AskOfCheck(s.checks[id]), granted))
  }

  ghost predicate ChecksBacked(cfg: Config, s: Checks.Service) {
    forall id :: id in s.checks ==> Backed(cfg, s, id)
  }

  // ---- Equal keys are about the same question ----

  lemma KeyFields(ctx: Context, scope: Value, grant: Value)
    ensures var t := KeyTree(ctx, scope, grant);
      && Field("tool_id", SortKeys(Str(ctx.toolId))) in SortedValues(t)
      && Field("resource_id", SortKeys(Str(ctx.resourceId))) in SortedValues(t)
  {
    hide SortKeys, Strings;
    var t := KeyTree(ctx, scope, grant);
    assert SortedValues(t)[1] == Field("tool_id", SortKeys(Str(ctx.toolId)));
    assert SortedValues(t)[2] == Field("resource_id", SortKeys(Str(ctx.resourceId)));
  }

  lemma ToolKeyIsOne(ctx: Context, scope: Value, grant: Value)
    ensures forall f :: f in SortedValues(KeyTree(ctx, scope, grant)) && f.key == "tool_id" ==> f.value == SortKeys(Str(ctx.toolId))
  {
    hide SortKeys, Strings;
  }

  lemma ResourceKeyIsOne(ctx: Context, scope: Value, grant: Value)
    ensures forall f :: f in SortedValues(KeyTree(ctx, scope, grant)) && f.key == "resource_id" ==> f.value == SortKeys(Str(ctx.resourceId))
  {
    hide SortKeys, Strings;
  }

  lemma TextsTell(s: string, t: string)
    requires SortKeys(Str(s)) == SortKeys(Str(t))
    ensures s == t
  {
  }

  lemma FlagsTell(b: bool, c: bool)
    requires SortKeys(Bool(b)) == SortKeys(Bool(c))
    ensures b == c
  {
  }

  /** Equal keys are keys about one tool, one resource and one grant flag. */
  lemma SameKeySameQuestion(sha: Value -> string, a: Context, sa: Value, ga: bool, b: Context, sb: Value, gb: bool)
    requires PerfectHash(sha) && StableHash(sha, KeyTree(a, sa, Bool(ga))) == StableHash(sha, KeyTree(b, sb, Bool(gb)))
    ensures a.toolId == b.toolId && a.resourceId == b.resourceId && ga == gb
  {
    hide SortKeys, SortedValues, Strings;
    var x, y := KeyTree(a, sa, Bool(ga)), KeyTree(b, sb, Bool(gb));
    KeyFields(a, sa, Bool(ga));
    Approval.KeyFields(a, sa, ga);
    Approval.KeyFields(b, sb, gb);
    ToolKeyIsOne(b, sb, Bool(gb));
    ResourceKeyIsOne(b, sb, Bool(gb));
    CanonicalField(x, y, "tool_id", Str(a.toolId), Str(b.toolId));
    CanonicalField(x, y, "resource_id", Str(a.resourceId), Str(b.resourceId));
    CanonicalField(x, y, "grant_present", Bool(ga), Bool(gb));
    TextsTell(a.toolId, b.toolId);
    TextsTell(a.resourceId, b.resourceId);
    FlagsTell(ga, gb);
  }

  // ---- Evaluating a check ----

  /** One evaluation leaves every other check alone; the one it returns is filed under the session and the key. */
  ghost predicate Outcome(
    s: Checks.Service, t: Checks.Service, id: nat, session: string, tool: string, resource: string, key: string, decided: Result<PolicyDecision>)
  {
    && id in t.checks && t.checks[id].session == session && t.checks[id].key == key
    && (forall x :: x in t.checks ==>
          (x in s.checks && Checks.SameIdentity(s.checks[x], t.checks[x]))
          || (x !in s.checks && x == id && t.checks[x].tool == tool && t.checks[x].resource == resource))
    && (forall x :: x in t.decisions ==>
          (x in s.decisions && t.decisions[x] == s.decisions[x]) || (x == id && decided == Ok(t.decisions[x])))
    && (forall x :: x in s.decisions ==> x in s.checks)
  }

  lemma CreateOutcome(
    s: Checks.Service, session: string, tool: string, resource: string, key: string, ttl: int, decided: Result<PolicyDecision>)
    requires Checks.Inv(s)
    ensures var (t, id) := Checks.CreateCheck(s, session, tool, resource, key, ttl);
      Outcome(s, t, id, session, tool, resource, key, decided)
  {
    hide Checks.Coherent;
    if (session, key) in s.index {
      assert Checks.Indexed(s, (session, key));
    }
  }

  lemma JudgeOutcome(
    s: Checks.Service, t: Checks.Service, id: nat, session: string, tool: string, resource: string, key: string,
    decided: Result<PolicyDecision>)
    requires id in t.checks && Outcome(s, t, id, session, tool, resource, key, decided)
    ensures Outcome(s, Checks.Judge(t, id, decided), id, session, tool, resource, key, decided)
  {
  }

  lemma EvaluateOutcome(
    s: Checks.Service, session: string, tool: string, resource: string, key: string, ttl: int, decided: Result<PolicyDecision>)
    requires Checks.Inv(s)
    ensures var (t, id) := Checks.EvaluateCheck(s, session, tool, resource, key, ttl, decided);
      Outcome(s, t, id, session, tool, resource, key, decided)
  {
    hide Outcome, Checks.Inv, Checks.CreateCheck, Checks.Judge;
    var (t, id) := Checks.CreateCheck(s, session, tool, resource, key, ttl);
    CreateOutcome(s, session, tool, resource, key, ttl, decided);
    if id in t.checks {
      JudgeOutcome(s, t, id, session, tool, resource, key, decided);
    }
  }

  /** A new decision has a reason. */
  predicate NewIsReasoned(cfg: Config, decided: Result<PolicyDecision>, a: Ask, granted: bool) {
    hide Reasoned;
    decided.Ok? && Executable(decided.value.decision) ==> Reasoned(cfg, a, granted)
  }

  /** The check that an evaluation returns is about the question, grant flag included, whenever it was created. */
  lemma OutcomeBacked(
    cfg: Config, s: Checks.Service, t: Checks.Service, id: nat, session: string, ctx: Context, scope: Value, granted: bool,
    decided: Result<PolicyDecision>)
    requires PerfectHash(cfg.sha) && ChecksBacked(cfg, s)
    requires Outcome(s, t, id, session, ctx.toolId, ctx.resourceId, StableHash(cfg.sha, KeyTree(ctx, scope, Bool(granted))), decided)
    requires NewIsReasoned(cfg, decided, Ask(session, ctx.toolId, ctx.resourceId), granted)
    ensures ChecksBacked(cfg, t)
    ensures id in t.checks && AskOfCheck(t.checks[id]) == Ask(session, ctx.toolId, ctx.resourceId)
    ensures DecidedExecutably(t, id) ==> Reasoned(cfg, Ask(session, ctx.toolId, ctx.resourceId), granted)
  {
    hide KeyTree, StableHash, Reasoned;
    forall x | x in t.checks
      ensures Backed(cfg, t, x)
      ensures x == id ==> AskOfCheck(t.checks[x]) == Ask(session, ctx.toolId, ctx.resourceId)
                          && (DecidedExecutably(t, x) ==> Reasoned(cfg, AskOfCheck(t.checks[x]), granted))
    {
      if x in s.checks && Checks.SameIdentity(s.checks[x], t.checks[x]) {
        assert Backed(cfg, s, x);
        var c, sc, g :| FitsTree(cfg.sha, s.checks[x], c, sc, g) && (DecidedExecutably(s, x) ==> Reasoned(cfg, AskOfCheck(s.checks[x]), g));
        assert FitsTree(cfg.sha, t.checks[x], c, sc, g);
        if x == id {
          SameKeySameQuestion(cfg.sha, c, sc, g, ctx, scope, granted);
        }
      } else {
        assert FitsTree(cfg.sha, t.checks[x], ctx, scope, granted);
      }
    }
  }

  // ---- The engine's reasons ----

  /** The engine decides executably. */
  predicate EngineAllows(cfg: Config, ctx: Context) {
    hide Decide;
    var d := Decide(cfg.sha, cfg.thresholds, ctx);
    d.Ok? && Executable(d.value.decision)
  }

  /** An executable decision of the engine about a picture is one that the picture lets run. */
  lemma EngineRuns(cfg: Config, ready: World, s: SessionRec, q: Question, p: Picture)
    ensures EngineAllows(cfg, QuestionContext(cfg, ready, s, q, p)) ==> Runs(p, q.session, q.tool, q.resource, cfg.thresholds)
  {
    hide ReadInputs, GatewayCtx, FindBinding, HitsFor, Decide, Executes, Grants, DatalogSignals, Runs;
    var binding, commit := FindBinding(cfg.bindings, q.tool, p.ts.scope, q.resource), CommitOf(HitsFor(ready.graph, s));
    var ctx := QuestionContext(cfg, ready, s, q, p);
    DecideIsDatalog(cfg.sha, cfg.thresholds, ctx);
    GatewayExecutesIff(p, q.session, q.tool, q.resource, binding, ready.store.nextId, commit, cfg.thresholds);
    if EngineAllows(cfg, ctx) {
      ExecutesIffGrants(ReadInputs(ctx, cfg.thresholds).value);
    }
  }

  lemma EngineReasons(cfg: Config, ready: World, s: SessionRec, q: Question, p: Picture)
    requires FindSession(cfg.catalog, q.session) == Some(s) && SearchedPicture(cfg, s, q.tool, q.resource, p.grantPresent) == Ok(p)
    ensures EngineAllows(cfg, QuestionContext(cfg, ready, s, q, p)) ==> Reasoned(cfg, AskOfQuestion(q), p.grantPresent)
  {
    hide EngineAllows, QuestionContext, SearchedPicture, Runs, FindSession;
    EngineRuns(cfg, ready, s, q, p);
  }

  /** A reason under the grant flag of this world is a justification in this world. */
  lemma ReasonJustifies(cfg: Config, w: World, s: SessionRec, a: Ask, p: Picture)
    requires FindSession(cfg.catalog, a.session) == Some(s) && SearchedPicture(cfg, s, a.tool, a.resource, p.grantPresent) == Ok(p)
    requires Look(Prepared(cfg, w, s).graph, a.session, a.tool, a.resource, w.store.now, cfg.parse) == Ok(p)
    requires Reasoned(cfg, a, p.grantPresent)
    ensures JustifiedIn(cfg, w, a)
  {
    hide Look, Prepared, FindSession, SearchedPicture, Runs, Answered, Justified;
    GatewayExecutesIff(p, a.session, a.tool, a.resource, None, 0, "", cfg.thresholds);
    ExecutableIsJustified(Prepared(cfg, w, s).graph, a.session, a.tool, a.resource, w.store.now, cfg.parse, p, None, 0, "", cfg.thresholds);
    assert JustifiedBy(cfg, w, a, s, p);
  }

  // ---- Answering a question ----

  /** An executable answer has a reason under the grant flag. */
  predicate AnswerReasoned(cfg: Config, auth: Option<Auth>, a: Ask, granted: bool) {
    hide Reasoned;
    auth.Some? && Executable(auth.value.verdict) ==> Reasoned(cfg, a, granted)
  }

  lemma DecidedBacked(cfg: Config, w: World, s: SessionRec, q: Question, p: Picture)
    requires PerfectHash(cfg.sha) && Checks.Inv(w.checks) && ChecksBacked(cfg, w.checks)
    requires FindSession(cfg.catalog, q.session) == Some(s) && SearchedPicture(cfg, s, q.tool, q.resource, p.grantPresent) == Ok(p)
    ensures var (w1, auth) := Decided(cfg, w, s, q, p);
      ChecksBacked(cfg, w1.checks) && AnswerReasoned(cfg, auth, AskOfQuestion(q), p.grantPresent)
  {
    hide Checks.Inv, ChecksBacked, Checks.EvaluateCheck, Outcome, KeyTree, StableHash, Decide, StateText, FollowUp, FindSession,
         FindBinding, HitsFor, PathOf, FactsOf, GatewayFacts, Reasoned, SearchedPicture;
    var ctx := QuestionContext(cfg, w, s, q, p);
    var scope := if "scope" in ctx.facts then ctx.facts["scope"] else Null;
    var decided := if q.engineUp then Decide(cfg.sha, cfg.thresholds, ctx) else Err("policy engine unavailable");
    var key := IdempotencyKey(cfg.sha, ctx);
    Approval.GrantFactInContext(cfg, w, s, q, p);
    var (checks, id) := Checks.EvaluateCheck(w.checks, q.session, q.tool, q.resource, key, 900, decided);
    EvaluateOutcome(w.checks, q.session, q.tool, q.resource, key, 900, decided);
    EngineReasons(cfg, w, s, q, p);
    OutcomeBacked(cfg, w.checks, checks, id, q.session, ctx, scope, p.grantPresent, decided);
    RecordedChecks(cfg, w, s, q, p, ctx);
  }

  predicate StoredAs(s: Checks.Service, id: nat, d: Decision) {
    id in s.checks && id in s.decisions && s.decisions[id].decision == d
  }

  predicate AnsweredFrom(cfg: Config, w: World, q: Question, ctx: Context, w1: World, auth: Option<Auth>) {
    hide Evaluated;
    var (checks, id) := Evaluated(cfg, w.checks, q, ctx);
    w1.checks == checks && (auth.Some? ==> StoredAs(checks, id, auth.value.verdict))
  }

  /** The answer is the stored decision of the evaluated check. */
  lemma RecordedChecks(cfg: Config, w: World, s: SessionRec, q: Question, p: Picture, ctx: Context)
    requires ctx == QuestionContext(cfg, w, s, q, p)
    ensures var (w1, auth) := Decided(cfg, w, s, q, p); AnsweredFrom(cfg, w, q, ctx, w1, auth)
  {
    hide QuestionContext, IdempotencyKey, Evaluated, StateText, IssueEphemeralGrant, CreateRequest, RequestFor;
  }

  /** The checks are in order and backed, and the similarity rows are hits of a catalog with one row a recipe. */
  ghost predicate Ready(cfg: Config, w: World) {
    && PerfectHash(cfg.sha) && DistinctRecipes(cfg.catalog.recipes) && RowsAreHits(cfg.catalog, w.similarity)
    && Checks.Inv(w.checks) && ChecksBacked(cfg, w.checks)
  }

  /**
   * An executable answer is justified by the tables of the world in which the question is asked, whether it is decided
   * now or replayed from an older check.
   */
  lemma ExecutableAnswerIsJustified(cfg: Config, w: World, q: Question)
    requires Ready(cfg, w)
    ensures ChecksBacked(cfg, RunAuthorize(cfg, w, q).0.checks)
    ensures AnswersExecutably(cfg, w, q) ==> JustifiedIn(cfg, w, AskOfQuestion(q))
  {
    hide Checks.Inv, ChecksBacked, Look, Decided, Prepared, JustifiedIn, FindSession, RowsAreHits, DistinctRecipes, Reasoned,
         SearchedPicture;
    var s := FindSession(cfg.catalog, q.session);
    if s.Some? && q.agentActive && s.value.agent == q.agent {
      var ready := Prepared(cfg, w, s.value);
      PreparedSaves(cfg, w, s.value);
      var look := Look(ready.graph, q.session, q.tool, q.resource, ready.store.now, cfg.parse);
      if look.Ok? {
        var p := look.value;
        PreparedSearch(cfg, w, s.value, q.tool, q.resource, ready.store.now, p);
        DecidedBacked(cfg, ready, s.value, q, p);
        if AnswersExecutably(cfg, w, q) {
          ReasonJustifies(cfg, w, s.value, AskOfQuestion(q), p);
        }
      }
    }
  }
}
