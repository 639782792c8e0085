/** A human approval unblocks the call that was escalated for it. */
module GatewayApproval {
  import opened Wrappers
  import opened Json
  import opened Canonical
  import opened PolicyTable
  import opened PolicyRows
  import opened PolicyTheorems
  import opened PolicyCompile
  import opened PolicyDecide
  import opened GrantLifecycle
  import opened GraphFallback
  import opened GatewayKeys
  import opened GatewayContext
  import opened GatewayExecutes
  import opened GatewayJustification
  import opened Gateway
  import opened GatewayRecipes
  import Checks = AuthorizationChecks

  // ---- The table ----

  /** With the grant, the rule that escalated gives way to the grant rule. */
  lemma GrantOutranksEscalation(s: Signals)
    requires Winner(s) == EscalateHumanRequiredScope
    ensures Winner(s.(grantPresent := true)) == AllowCurrentGrant
  {
    hide Winner;
    var t := s.(grantPresent := true);
    WinnerIsMaximal(s, DenyDefault);
    WinnerOfHardDeny(s);
    assert Fires(EscalateHumanRequiredScope, s);
    assert !Fires(EscalateLowTrustExternal, s) by {
      if Fires(EscalateLowTrustExternal, s) {
        WinnerIsMaximal(s, EscalateLowTrustExternal);
      }
    }
    assert forall rule :: IsHardDeny(rule) ==> HardFires(rule, t) == HardFires(rule, s);
    assert Fires(AllowCurrentGrant, t);
    WinnerIs(t, AllowCurrentGrant);
  }

  // ---- The facts ----

  lemma GrantedOtherFacts(p: Picture, session: string, tool: string, resource: string)
    ensures OtherFacts(p.(grantPresent := true), session, tool, resource) == OtherFacts(p, session, tool, resource)
  {
  }

  lemma GrantUpdate(facts: Facts, a: Value, b: Value)
    ensures facts["grant_present" := b] == facts["grant_present" := a]["grant_present" := b]
  {
  }

  /** With the grant, the context differs in one fact. */
  lemma GrantedContext(
    p: Picture, session: string, tool: string, resource: string, binding: Option<BindingRec>, snapshotId: nat, commit: string)
    ensures GatewayCtx(p.(grantPresent := true), session, tool, resource, binding, snapshotId, commit)
         == var ctx := GatewayCtx(p, session, tool, resource, binding, snapshotId, commit);
            ctx.(facts := ctx.facts["grant_present" := Bool(true)])
  {
    hide GatewayFacts, OtherFacts, NonEmpty;
    var granted := p.(grantPresent := true);
    GrantedOtherFacts(p, session, tool, resource);
    var base := OtherFacts(p, session, tool, resource)["session_team" := Str(p.s.team)]["same_team" := Bool(p.res.team == p.s.team)];
    GrantUpdate(base, Bool(p.grantPresent), Bool(true));
    assert "grant_present" !in ADDED_KEYS;
    GatewayFactsCommute(FactsOf(p, session, tool, resource), "grant_present", Bool(true), binding, snapshotId, commit);
  }

  /** The snapshot id is one fact. */
  lemma SnapshotUpdate(facts: Facts, binding: Option<BindingRec>, a: nat, b: nat, commit: string)
    ensures GatewayFacts(facts, binding, b, commit) == GatewayFacts(facts, binding, a, commit)["context_snapshot_id" := Num(b)]
  {
  }

  /** No row is made from it. */
  lemma SnapshotUnread(ctx: Context, n: int, text: string, th: Thresholds)
    ensures ReadInputs(ctx.(facts := ctx.facts["context_snapshot_id" := Num(n)], snapshotId := text), th) == ReadInputs(ctx, th)
  {
    hide ViolationKinds, TextOr, Flag, OptionalFlag, CredentialClass, CredentialBinding, JudgeRows, ReadIdentity, FloatOf, ReadInputs;
    var id := ReadIdentity(ctx);
    IdentityUnaffected(ctx, "context_snapshot_id", Num(n));
    OtherReadsUnaffected(ctx.facts, "context_snapshot_id", Num(n));
    DerivedReadsUnaffected(ctx.facts, "context_snapshot_id", Num(n), id.session, id.tool, id.scope);
    SnapshotLeavesGrant(ctx.facts, n);
    SameReads(ctx, ctx.facts["context_snapshot_id" := Num(n)], th);
    SnapshotTextUnread(ctx.(facts := ctx.facts["context_snapshot_id" := Num(n)]), text, th);
  }

  lemma SnapshotTextUnread(ctx: Context, text: string, th: Thresholds)
    ensures ReadInputs(ctx.(snapshotId := text), th) == ReadInputs(ctx, th)
  {
    hide ViolationKinds, TextOr, Flag, OptionalFlag, CredentialClass, CredentialBinding, JudgeRows, FloatOf, PathAt;
  }

  lemma SnapshotLeavesGrant(facts: Facts, n: int)
    ensures Flag(facts["context_snapshot_id" := Num(n)], "grant_present", false) == Flag(facts, "grant_present", false)
  {
  }

  /** Asked again with the grant and under another snapshot, the compiler reads the same inputs plus the grant. */
  lemma GrantedInputs(
    p: Picture, session: string, tool: string, resource: string, binding: Option<BindingRec>, a: nat, b: nat, commit: string,
    th: Thresholds, i: Inputs)
    requires ReadInputs(GatewayCtx(p, session, tool, resource, binding, a, commit), th) == Ok(i)
    ensures ReadInputs(GatewayCtx(p.(grantPresent := true), session, tool, resource, binding, b, commit), th) == Ok(i.(grantPresent := true))
  {
    hide ReadInputs, GatewayFacts, FactsOf, NonEmpty;
    var ctx := GatewayCtx(p, session, tool, resource, binding, a, commit);
    var later := GatewayCtx(p, session, tool, resource, binding, b, commit);
    SnapshotUpdate(FactsOf(p, session, tool, resource), binding, a, b, commit);
    assert later == ctx.(facts := ctx.facts["context_snapshot_id" := Num(b)], snapshotId := later.snapshotId);
    SnapshotUnread(ctx, b, later.snapshotId, th);
    GrantedContext(p, session, tool, resource, binding, b, commit);
    SettingGrant(later, th);
  }

  // ---- The idempotency key ----

  /** The tree under the idempotency key. */
  lemma KeyFields(ctx: Context, scope: Value, grant: bool)
    ensures var a := KeyTree(ctx, scope, Bool(grant));
      && Field("grant_present", SortKeys(Bool(grant))) in SortedValues(a)
      && (forall f :: f in SortedValues(a) && f.key == "grant_present" ==> f.value == SortKeys(Bool(grant)))
  {
    hide SortKeys, Strings;
    var a := KeyTree(ctx, scope, Bool(grant));
    assert SortedValues(a)[4] == Field("grant_present", SortKeys(Bool(grant)));
  }

  /** The two questions have different idempotency keys. */
  lemma KeysDiffer(sha: Value -> string, a: Context, b: Context)
    requires PerfectHash(sha)
    requires Holds(a.facts, "grant_present", Bool(false)) && Holds(b.facts, "grant_present", Bool(true))
    ensures IdempotencyKey(sha, a) != IdempotencyKey(sha, b)
  {
    hide SortKeys, SortedValues, Strings;
    var sa := if "scope" in a.facts then a.facts["scope"] else Null;
    var sb := if "scope" in b.facts then b.facts["scope"] else Null;
    KeyFields(a, sa, false);
    KeyFields(b, sb, true);
    var ta, tb := KeyTree(a, sa, Bool(false)), KeyTree(b, sb, Bool(true));
    assert SortKeys(ta) != SortKeys(tb) by {
      TreesDiffer(ta, tb);
    }
  }

  lemma TreesDiffer(a: Value, b: Value)
    requires a.Obj? && b.Obj?
    requires Field("grant_present", SortKeys(Bool(false))) in SortedValues(a)
    requires forall f :: f in SortedValues(b) && f.key == "grant_present" ==> f.value == SortKeys(Bool(true))
    ensures SortKeys(a) != SortKeys(b)
  {
    hide SortedValues;
    assert SortKeys(Bool(false)) != SortKeys(Bool(true));
    if SortKeys(a) == SortKeys(b) {
      CanonicalField(a, b, "grant_present", Bool(false), Bool(true));
    }
  }

  // ---- Asking again ----

  lemma DecideOf(cfg: Config, ctx: Context, i: Inputs)
    requires ReadInputs(ctx, cfg.thresholds) == Ok(i)
    ensures Decide(cfg.sha, cfg.thresholds, ctx).Ok?
    ensures var d := Decide(cfg.sha, cfg.thresholds, ctx).value;
      d.decision == DecisionOf(Winner(DatalogSignals(i))) && d.requiredScope == i.scope
  {
    hide ReadInputs, Winner, DatalogSignals, ProofPayload, RowsOf, FactStrings;
  }

  ghost predicate CheckHolds(checks: Checks.Service, id: nat, decision: Decision, scope: string) {
    id in checks.checks && id in checks.decisions && checks.decisions[id].decision == decision && checks.decisions[id].requiredScope == scope
  }

  /** The check of a question under a key that no check has used holds what the engine decides now. */
  lemma FreshCheck(cfg: Config, w: World, q: Question, ctx: Context, i: Inputs)
    requires q.engineUp && ReadInputs(ctx, cfg.thresholds) == Ok(i)
    requires (q.session, IdempotencyKey(cfg.sha, ctx)) !in w.checks.index
    ensures var (checks, id) := Evaluated(cfg, w.checks, q, ctx);
      CheckHolds(checks, id, DecisionOf(Winner(DatalogSignals(i))), i.scope)
  {
    hide IdempotencyKey, ReadInputs, Winner, DatalogSignals, Decide, Checks.EvaluateCheck;
    DecideOf(cfg, ctx, i);
    var d := Decide(cfg.sha, cfg.thresholds, ctx).value;
    NewKeyIsJudged(w.checks, q.session, q.tool, q.resource, IdempotencyKey(cfg.sha, ctx), 900, d);
  }

  /** A question under a key that no check has used is decided afresh. */
  lemma FreshDecision(cfg: Config, w: World, s: SessionRec, q: Question, p: Picture, i: Inputs)
    requires q.engineUp && ReadInputs(QuestionContext(cfg, w, s, q, p), cfg.thresholds) == Ok(i)
    requires (q.session, KeyOf(cfg, w, s, q, p)) !in w.checks.index
    ensures DecidedAs(Decided(cfg, w, s, q, p).1, DecisionOf(Winner(DatalogSignals(i))))
  {
    hide QuestionContext, IdempotencyKey, ReadInputs, Winner, DatalogSignals, Evaluated, FollowUp, StateText;
    FreshCheck(cfg, w, q, QuestionContext(cfg, w, s, q, p), i);
  }

  predicate DecidedAs(auth: Option<Auth>, d: Decision) {
    auth.Some? && auth.value.verdict == d
  }

  lemma NewKeyIsJudged(checks: Checks.Service, session: string, tool: string, resource: string, key: string, ttl: int, d: PolicyDecision)
    requires (session, key) !in checks.index
    ensures var (after, id) := Checks.EvaluateCheck(checks, session, tool, resource, key, ttl, Ok(d));
      id in after.checks && id in after.decisions && after.decisions[id] == d
  {
  }

  /** The escalated question, as the prepared world `w` saw it. */
  ghost predicate Escalated(cfg: Config, w: World, s: SessionRec, q: Question, p: Picture, i: Inputs) {
    && w.graph.catalog == cfg.catalog
    && Look(w.graph, q.session, q.tool, q.resource, w.store.now, cfg.parse) == Ok(p)
    && ReadInputs(QuestionContext(cfg, w, s, q, p), cfg.thresholds) == Ok(i)
    && Winner(DatalogSignals(i)) == EscalateHumanRequiredScope
  }

  /** The session asks through its own, active agent. */
  predicate MayAsk(cfg: Config, s: SessionRec, q: Question) {
    FindSession(cfg.catalog, q.session) == Some(s) && q.agentActive && s.agent == q.agent && q.engineUp
  }

  /** The key of a question about a picture. */
  function KeyOf(cfg: Config, w: World, s: SessionRec, q: Question, p: Picture): string {
    IdempotencyKey(cfg.sha, QuestionContext(cfg, w, s, q, p))
  }

  /** An escalated question had no grant. */
  lemma EscalatedWithoutGrant(cfg: Config, w: World, s: SessionRec, q: Question, p: Picture, i: Inputs)
    requires Escalated(cfg, w, s, q, p, i)
    ensures !p.grantPresent && i.grantPresent == p.grantPresent && (p.ts.scope != "" ==> i.scope == p.ts.scope)
  {
    hide ReadInputs, Look, Winner, SignalsOf, GatewayCtx, ReadTeam, NonEmpty;
    GatewayReads(p, q.session, q.tool, q.resource, FindBinding(cfg.bindings, q.tool, p.ts.scope, q.resource), w.store.nextId,
                 CommitOf(HitsFor(w.graph, s)), cfg.thresholds);
    EscalationNeedsNoGrant(i);
  }

  lemma EscalationNeedsNoGrant(i: Inputs)
    requires Winner(DatalogSignals(i)) == EscalateHumanRequiredScope
    ensures !i.grantPresent
  {
    hide Winner;
    WinnerIsMaximal(DatalogSignals(i), DenyDefault);
    assert Fires(EscalateHumanRequiredScope, DatalogSignals(i));
  }

  lemma GrantFactInContext(cfg: Config, w: World, s: SessionRec, q: Question, p: Picture)
    ensures Holds(QuestionContext(cfg, w, s, q, p).facts, "grant_present", Bool(p.grantPresent))
  {
    hide FactsOf, GatewayFacts, PathOf;
    GatewayFactsHold(p, q.session, q.tool, q.resource, FindBinding(cfg.bindings, q.tool, p.ts.scope, q.resource), w.store.nextId,
                     CommitOf(HitsFor(w.graph, s)));
  }

  /**
   * Human approval unblocks: once a matching grant is live and the other facts are as they were when the call was
   * escalated, the graph reports the grant, the idempotency key is another one, and, unless some earlier check used
   * that key, the new decision is ALLOW.
   */
  lemma GrantUnblocks(
    cfg: Config, before: World, w: World, ready: World, s: SessionRec, q: Question, p: Picture, i: Inputs, now: Picture)
    requires PerfectHash(cfg.sha) && MayAsk(cfg, s, q) && Escalated(cfg, before, s, q, p, i) && ready == Prepared(cfg, w, s)
    requires Look(ready.graph, q.session, q.tool, q.resource, ready.store.now, cfg.parse) == Ok(now)
    requires now.(grantPresent := p.grantPresent) == p
    requires ActiveGrantFor(w.store.grants, q.session, p.ts.scope, q.resource, w.store.now)
    ensures now.grantPresent
    ensures KeyOf(cfg, ready, s, q, now) != KeyOf(cfg, before, s, q, p)
    ensures (q.session, KeyOf(cfg, ready, s, q, now)) !in w.checks.index ==> AnswersWith(cfg, w, q, Allow)
  {
    hide Look, Decided, QuestionContext, IdempotencyKey, ReadInputs, Winner, DatalogSignals, SaveHits, ActiveGrantFor, Holds;
    SyncedGrant(cfg, w, s, q, now);
    assert now == p.(grantPresent := true);
    EscalatedWithoutGrant(cfg, before, s, q, p, i);
    GrantFactInContext(cfg, before, s, q, p);
    GrantFactInContext(cfg, ready, s, q, now);
    KeysDiffer(cfg.sha, QuestionContext(cfg, before, s, q, p), QuestionContext(cfg, ready, s, q, now));
    LaterInputs(cfg, before, ready, s, q, p, i);
    if (q.session, KeyOf(cfg, ready, s, q, now)) !in w.checks.index {
      FreshDecision(cfg, ready, s, q, now, i.(grantPresent := true));
      GrantOutranksEscalation(DatalogSignals(i));
      assert DatalogSignals(i.(grantPresent := true)) == DatalogSignals(i).(grantPresent := true) by {
        GrantSignal(i);
      }
    }
  }

  lemma GrantSignal(i: Inputs)
    ensures DatalogSignals(i.(grantPresent := true)) == DatalogSignals(i).(grantPresent := true)
  {
  }

  lemma LaterInputs(cfg: Config, before: World, ready: World, s: SessionRec, q: Question, p: Picture, i: Inputs)
    requires before.graph.catalog == ready.graph.catalog
    requires ReadInputs(QuestionContext(cfg, before, s, q, p), cfg.thresholds) == Ok(i)
    ensures ReadInputs(QuestionContext(cfg, ready, s, q, p.(grantPresent := true)), cfg.thresholds) == Ok(i.(grantPresent := true))
  {
    hide ReadInputs, GatewayCtx, FindBinding, RankedHits;
    GrantedInputs(p, q.session, q.tool, q.resource, FindBinding(cfg.bindings, q.tool, p.ts.scope, q.resource), before.store.nextId,
                  ready.store.nextId, CommitOf(HitsFor(before.graph, s)), cfg.thresholds, i);
  }

  /** A live grant of the store is reported by the freshly synced graph. */
  lemma SyncedGrant(cfg: Config, w: World, s: SessionRec, q: Question, p: Picture)
    requires var ready := Prepared(cfg, w, s); Look(ready.graph, q.session, q.tool, q.resource, ready.store.now, cfg.parse) == Ok(p)
    requires ActiveGrantFor(w.store.grants, q.session, p.ts.scope, q.resource, w.store.now)
    ensures p.grantPresent
  {
  }

  /** A fresh executable answer of the gateway is what the engine says about the rows that it looked up. */
  lemma FreshAnswer(cfg: Config, w: World, ready: World, s: SessionRec, q: Question, p: Picture)
    requires MayAsk(cfg, s, q) && ready == Prepared(cfg, w, s)
    requires Look(ready.graph, q.session, q.tool, q.resource, ready.store.now, cfg.parse) == Ok(p)
    requires (q.session, KeyOf(cfg, ready, s, q, p)) !in w.checks.index
    ensures AnswersExecutably(cfg, w, q)
       <==> Answered(p, q.session, q.tool, q.resource, FindBinding(cfg.bindings, q.tool, p.ts.scope, q.resource), ready.store.nextId,
                     CommitOf(HitsFor(ready.graph, s)), cfg.thresholds)
  {
    hide Look, Decided, IdempotencyKey, ReadInputs, Winner, DatalogSignals, SaveHits, GatewayCtx, Executes, HitsFor, FindBinding, Grants;
    var binding := FindBinding(cfg.bindings, q.tool, p.ts.scope, q.resource);
    var commit := CommitOf(HitsFor(ready.graph, s));
    GatewayReads(p, q.session, q.tool, q.resource, binding, ready.store.nextId, commit, cfg.thresholds);
    var i := ReadInputs(QuestionContext(cfg, ready, s, q, p), cfg.thresholds).value;
    FreshDecision(cfg, ready, s, q, p, i);
    ExecutableIffGrants(DatalogSignals(i));
    ExecutesIffGrants(i);
  }

  /** A fresh question is answered executably exactly when the rows that it looks up say so. */
  lemma FreshDecisionIff(cfg: Config, w: World, ready: World, s: SessionRec, q: Question, p: Picture)
    requires MayAsk(cfg, s, q) && ready == Prepared(cfg, w, s)
    requires Look(ready.graph, q.session, q.tool, q.resource, ready.store.now, cfg.parse) == Ok(p)
    requires (q.session, KeyOf(cfg, ready, s, q, p)) !in w.checks.index
    ensures AnswersExecutably(cfg, w, q) <==> Runs(p, q.session, q.tool, q.resource, cfg.thresholds)
  {
    hide Look, AnswersExecutably, Prepared, KeyOf, Answered, HitsFor, FindBinding, Runs;
    FreshAnswer(cfg, w, ready, s, q, p);
    GatewayExecutesIff(p, q.session, q.tool, q.resource, FindBinding(cfg.bindings, q.tool, p.ts.scope, q.resource), ready.store.nextId,
                       CommitOf(HitsFor(ready.graph, s)), cfg.thresholds);
  }

  /**
   * A fresh executable decision of the gateway is justified by the tables as they are: delegation, recipe, score,
   * context path, and a live grant or an auto-approved scope.
   */
  lemma FreshDecisionIsJustified(cfg: Config, w: World, ready: World, s: SessionRec, q: Question, p: Picture)
    requires MayAsk(cfg, s, q) && ready == Prepared(cfg, w, s)
    requires Look(ready.graph, q.session, q.tool, q.resource, ready.store.now, cfg.parse) == Ok(p)
    requires (q.session, KeyOf(cfg, ready, s, q, p)) !in w.checks.index && AnswersExecutably(cfg, w, q)
    ensures Justified(ready.graph, p, q.session, q.tool, q.resource, w.store.now)
  {
    hide Look, AnswersExecutably, KeyOf, Answered, HitsFor, FindBinding, Justified, SaveHits;
    FreshAnswer(cfg, w, ready, s, q, p);
    ExecutableIsJustified(ready.graph, q.session, q.tool, q.resource, ready.store.now, cfg.parse, p,
                          FindBinding(cfg.bindings, q.tool, p.ts.scope, q.resource), ready.store.nextId,
                          CommitOf(HitsFor(ready.graph, s)), cfg.thresholds);
  }

  /**
   * The recipe behind a fresh executable decision is an accepted one with a stored score of at least 0.82 if and only
   * if the search for the session returns a hit.
   */
  lemma FreshDecisionRecipeIff(cfg: Config, w: World, ready: World, s: SessionRec, q: Question, p: Picture)
    requires DistinctRecipes(cfg.catalog.recipes) && RowsAreHits(cfg.catalog, w.similarity)
    requires MayAsk(cfg, s, q) && ready == Prepared(cfg, w, s)
    requires Look(ready.graph, q.session, q.tool, q.resource, ready.store.now, cfg.parse) == Ok(p)
    requires (q.session, KeyOf(cfg, ready, s, q, p)) !in w.checks.index && AnswersExecutably(cfg, w, q)
    ensures MatchedAccepted(p) <==> SessionHits(cfg.catalog, s) != []
    ensures MatchedStored(p, ready.similarity) <==> SessionHits(cfg.catalog, s) != []
    ensures MatchedEarned(p, cfg.catalog) <==> SessionHits(cfg.catalog, s) != []
  {
    hide Look, AnswersExecutably, Prepared, KeyOf, Answered, HitsFor, FindBinding, RowsAreHits, DistinctRecipes,
         SessionHits, StoredHit, Earned;
    FreshAnswer(cfg, w, ready, s, q, p);
    ExecutableRecipeIff(cfg, w, ready, s, q.tool, q.resource, ready.store.now, p, FindBinding(cfg.bindings, q.tool, p.ts.scope, q.resource),
                        ready.store.nextId, CommitOf(HitsFor(ready.graph, s)));
  }

  // ---- The cached grants ----

  /**
   * While no grant is written after a sync, the cached copy reports a grant exactly when the store's own query would
   * find one, at any later time.
   */
  lemma CacheAgreesWithStore(grants: seq<Grant>, synced: nat, now: nat, session: string, scope: string, resource: string, parse: Parsers)
    requires synced <= now
    ensures GrantPresent(ActiveGrants(grants, synced), session, scope, resource, now, parse)
       <==> ActiveGrantFor(grants, session, scope, resource, now)
  {
  }
}
