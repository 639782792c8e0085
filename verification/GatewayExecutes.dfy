/** Exactly when a question of the gateway ends in an executable answer, in terms of the rows that it looks up. */
module GatewayExecutes {
  import opened Wrappers
  import opened Json
  import opened PolicyTable
  import opened PolicyRows
  import opened PolicyTheorems
  import opened PolicyCompile
  import opened GraphFallback
  import opened GatewayKeys
  import opened GatewayContext

  // ---- The keys of the facts ----

  lemma BoundKeys(facts: Facts, binding: Option<BindingRec>, snapshotId: nat, commit: string, key: string)
    requires key in GatewayFacts(facts, binding, snapshotId, commit)
    ensures key in facts || key in ADDED_KEYS
  {
  }

  /** Every fact of a gateway question has one of these keys. */
  lemma GatewayFactKeys(
    p: Picture, session: string, tool: string, resource: string, binding: Option<BindingRec>, snapshotId: nat, commit: string, key: string)
    requires key in GatewayFacts(FactsOf(p, session, tool, resource), binding, snapshotId, commit)
    ensures key in FACT_KEYS || key in ADDED_KEYS
  {
    hide FactsOf, GatewayFacts;
    BoundKeys(FactsOf(p, session, tool, resource), binding, snapshotId, commit, key);
    if key in FactsOf(p, session, tool, resource) {
      GraphKeys(p, session, tool, resource, key);
    }
  }

  /** No fact of a gateway question counts as a violation: there is no flag, and no key reads as a secret. */
  lemma NoViolations(
    p: Picture, session: string, tool: string, resource: string, binding: Option<BindingRec>, snapshotId: nat, commit: string)
    ensures ViolationKinds(GatewayFacts(FactsOf(p, session, tool, resource), binding, snapshotId, commit)) == []
  {
    hide FactsOf, GatewayFacts, FACT_KEYS, ADDED_KEYS, ExposesSecret, FlaggedViolations, VIOLATION_FLAGS;
    var facts := GatewayFacts(FactsOf(p, session, tool, resource), binding, snapshotId, commit);
    forall key | key in facts ensures !IsFlag(key) && !ExposesSecret(key, facts[key]) {
      GatewayFactKeys(p, session, tool, resource, binding, snapshotId, commit, key);
      KeyIsInnocent(key);
    }
    forall f | f in VIOLATION_FLAGS ensures f.0 !in facts {
      assert IsFlag(f.0);
    }
    NothingFlagged(facts, VIOLATION_FLAGS);
  }

  // ---- The remaining reads ----

  /** Facts that the policy knows and the gateway never sends. */
  const UNSENT_KEYS: set<string> := {"break_glass", "external_write_predicted", "tool_risk", "credential_ref_status"}

  lemma Unsent(
    p: Picture, session: string, tool: string, resource: string, binding: Option<BindingRec>, snapshotId: nat, commit: string, key: string)
    requires key in UNSENT_KEYS
    ensures key !in GatewayFacts(FactsOf(p, session, tool, resource), binding, snapshotId, commit)
  {
    hide FactsOf, GatewayFacts;
    assert key !in FACT_KEYS && key !in ADDED_KEYS;
    if key in GatewayFacts(FactsOf(p, session, tool, resource), binding, snapshotId, commit) {
      GatewayFactKeys(p, session, tool, resource, binding, snapshotId, commit, key);
    }
  }

  lemma ResourceFacts(p: Picture, session: string, tool: string, resource: string)
    ensures Holds(FactsOf(p, session, tool, resource), "tool_id", Str(tool))
    ensures Holds(FactsOf(p, session, tool, resource), "resource_external", Bool(p.res.external))
    ensures Holds(FactsOf(p, session, tool, resource), "resource_sensitivity", Str(p.res.sensitivity))
  {
  }

  lemma ActorFacts(p: Picture, session: string, tool: string, resource: string)
    ensures Holds(FactsOf(p, session, tool, resource), "access_kind", Str(p.ts.accessKind))
    ensures Holds(FactsOf(p, session, tool, resource), "agent_trust_score", if p.trust.Some? then Num(p.trust.value) else Null)
  {
  }

  lemma NoCredentialFacts(p: Picture, session: string, tool: string, resource: string)
    ensures "credential_class" !in FactsOf(p, session, tool, resource)
    ensures "credential_required" !in FactsOf(p, session, tool, resource)
  {
    hide FactsOf;
    if "credential_class" in FactsOf(p, session, tool, resource) {
      GraphKeys(p, session, tool, resource, "credential_class");
    }
    if "credential_required" in FactsOf(p, session, tool, resource) {
      GraphKeys(p, session, tool, resource, "credential_required");
    }
  }

  /** A bound credential is active, fits the call and stays hidden from the agent; without a binding none is required. */
  predicate CredentialFits(facts: Facts, tool: string, scope: string) {
    CredentialClass(tool, facts).None?
    || (var b := CredentialBinding(tool, scope, facts);
        b.Some? && b.value.tool == tool && b.value.scope == scope && b.value.refStatus == "active" && !b.value.exposesSecret)
  }

  lemma UnboundFits(facts: Facts, snapshotId: nat, commit: string, tool: string, scope: string)
    requires "credential_class" !in facts && "credential_required" !in facts
    ensures CredentialFits(GatewayFacts(facts, None, snapshotId, commit), tool, scope)
  {
    hide CredentialBinding;
  }

  lemma BoundFacts(facts: Facts, b: BindingRec, snapshotId: nat, commit: string)
    ensures Holds(GatewayFacts(facts, Some(b), snapshotId, commit), "credential_binding_available", Bool(true))
    ensures Holds(GatewayFacts(facts, Some(b), snapshotId, commit), "secret_exposed_to_agent", Bool(false))
  {
  }

  lemma CredentialAlwaysFits(
    p: Picture, session: string, tool: string, resource: string, binding: Option<BindingRec>, snapshotId: nat, commit: string,
    t: string, scope: string)
    ensures CredentialFits(GatewayFacts(FactsOf(p, session, tool, resource), binding, snapshotId, commit), t, scope)
  {
    hide FactsOf, GatewayFacts;
    var facts := FactsOf(p, session, tool, resource);
    if binding.None? {
      NoCredentialFacts(p, session, tool, resource);
      UnboundFits(facts, snapshotId, commit, t, scope);
    } else {
      BoundFacts(facts, binding.value, snapshotId, commit);
      Unsent(p, session, tool, resource, binding, snapshotId, commit, "credential_ref_status");
    }
  }

  /** The facts about the resource, the tool and the agent, gathered. */
  ghost predicate RestFacts(facts: Facts, p: Picture, tool: string) {
    && Holds(facts, "tool_id", Str(tool))
    && Holds(facts, "resource_external", Bool(p.res.external))
    && Holds(facts, "resource_sensitivity", Str(p.res.sensitivity))
    && Holds(facts, "access_kind", Str(p.ts.accessKind))
    && Holds(facts, "agent_trust_score", if p.trust.Some? then Num(p.trust.value) else Null)
    && "break_glass" !in facts && "external_write_predicted" !in facts && "tool_risk" !in facts
    && ViolationKinds(facts) == []
    && forall t, scope :: CredentialFits(facts, t, scope)
  }

  const REST_KEYS: set<string> := {"tool_id", "resource_external", "resource_sensitivity", "access_kind", "agent_trust_score"}

  lemma RestFactsHold(
    p: Picture, session: string, tool: string, resource: string, binding: Option<BindingRec>, snapshotId: nat, commit: string)
    ensures RestFacts(GatewayFacts(FactsOf(p, session, tool, resource), binding, snapshotId, commit), p, tool)
  {
    hide FactsOf, GatewayFacts, CredentialFits, ViolationKinds;
    var facts := FactsOf(p, session, tool, resource);
    ResourceFacts(p, session, tool, resource);
    ActorFacts(p, session, tool, resource);
    forall key | key in REST_KEYS
      ensures key in facts ==> Holds(GatewayFacts(facts, binding, snapshotId, commit), key, facts[key])
    {
      assert key !in ADDED_KEYS;
      GatewayKeepsFacts(facts, binding, snapshotId, commit, key);
    }
    forall key | key in UNSENT_KEYS ensures key !in GatewayFacts(facts, binding, snapshotId, commit) {
      Unsent(p, session, tool, resource, binding, snapshotId, commit, key);
    }
    NoViolations(p, session, tool, resource, binding, snapshotId, commit);
    forall t, scope ensures CredentialFits(GatewayFacts(facts, binding, snapshotId, commit), t, scope) {
      CredentialAlwaysFits(p, session, tool, resource, binding, snapshotId, commit, t, scope);
    }
  }

  function Sensitivity(p: Picture): string {
    if p.res.sensitivity != "" then p.res.sensitivity else if p.res.external then "high" else "normal"
  }

  function Scope(p: Picture, session: string, tool: string, resource: string): string {
    if p.ts.scope != "" then p.ts.scope else PathAt(PathOf(p, session, tool, resource), 3, "scope:unknown")
  }

  function Risk(tool: string): string {
    DefaultRisk(if tool != "" then tool else "tool.unknown")
  }

  /** The rest of the compiled inputs that decides about a gateway question. */
  ghost predicate ReadsRest(i: Inputs, p: Picture, session: string, tool: string, resource: string, th: Thresholds) {
    && i.recipe == PathAt(PathOf(p, session, tool, resource), 1, "recipe_unknown")
    && i.scope == Scope(p, session, tool, resource)
    && i.accessKind == (if p.ts.accessKind != "" then p.ts.accessKind else "read")
    && i.external == p.res.external && i.sensitivity == Sensitivity(p) && i.risk == Risk(tool)
    && i.trust == p.trust && i.thresholds == th
    && i.violations == [] && i.breakGlass.None? && i.externalWritePredicted.None?
    && CredentialOk(i)
  }

  lemma RestIdentity(ctx: Context, p: Picture, session: string, tool: string, resource: string)
    requires ctx.recipeId == "" && ctx.scope == "" && ctx.accessKind == "" && ctx.toolId == tool
    requires ctx.contextPath == PathOf(p, session, tool, resource)
    requires Holds(ctx.facts, "scope", Str(p.ts.scope)) && RestFacts(ctx.facts, p, tool)
    ensures var id := ReadIdentity(ctx);
      && id.recipe == PathAt(PathOf(p, session, tool, resource), 1, "recipe_unknown")
      && id.scope == Scope(p, session, tool, resource)
      && id.accessKind == (if p.ts.accessKind != "" then p.ts.accessKind else "read")
      && DefaultRisk(id.tool) == Risk(tool)
  {
    hide PathOf, PathAt, CredentialFits, ViolationKinds;
  }

  lemma GatewayReadsRest(
    p: Picture, session: string, tool: string, resource: string, binding: Option<BindingRec>, snapshotId: nat, commit: string, th: Thresholds)
    ensures var r := ReadInputs(GatewayCtx(p, session, tool, resource, binding, snapshotId, commit), th);
            r.Ok? ==> ReadsRest(r.value, p, session, tool, resource, th)
  {
    hide FactsOf, GatewayFacts, CredentialClass, CredentialBinding, ViolationKinds, PathOf, JudgeRows, ReadIdentity,
         Scope, Risk, DefaultRisk;
    GatewayFactsHold(p, session, tool, resource, binding, snapshotId, commit);
    RestFactsHold(p, session, tool, resource, binding, snapshotId, commit);
    var ctx := GatewayCtx(p, session, tool, resource, binding, snapshotId, commit);
    RestIdentity(ctx, p, session, tool, resource);
    assert CredentialFits(ctx.facts, ReadIdentity(ctx).tool, ReadIdentity(ctx).scope);
  }

  // ---- When the answer is executable ----

  function Score(p: Picture): int {
    if p.similarity.Some? then p.similarity.value.score else if p.recipe.Some? then 1000 else 0
  }

  /** Whether a question about this picture ends in an executable answer. */
  predicate Runs(p: Picture, session: string, tool: string, resource: string, th: Thresholds) {
    && p.delegated && p.predicts && PathAt(PathOf(p, session, tool, resource), 1, "recipe_unknown") != "recipe_unknown"
    && Score(p) >= MIN_RECIPE_SCORE && (p.similarity.Some? ==> p.similarity.value.reified)
    && ReadTeam(p, session, tool, resource)
       == (if p.res.team != "" then p.res.team else if p.s.team == "" then ReadTeam(p, session, tool, resource) else "team_mismatch")
    && (p.trust.Some? ==> p.trust.value >= th.minimum)
    && Scope(p, session, tool, resource) !in ADMIN_SCOPES
    && !(p.res.external && p.ts.accessKind == "write")
    && (p.grantPresent || (p.mode.Some? && p.mode.value.approvalMode == "auto_approve"
                           && LowStakes(Risk(tool), Sensitivity(p), p.res.external)))
  }

  lemma RunsIff(i: Inputs, p: Picture, session: string, tool: string, resource: string, th: Thresholds)
    requires Reads(i, p, session, tool, resource) && ReadsRest(i, p, session, tool, resource, th)
    ensures Grants(DatalogSignals(i)) <==> Runs(p, session, tool, resource, th)
  {
    hide NonEmpty, CredentialOk, LowStakes, Risk, Sensitivity, Scope, ReadTeam;
    var s := DatalogSignals(i);
    assert HardFires(DenyNoDelegation, s) <==> !p.delegated;
    assert HardFires(DenyLowTrust, s) <==> p.trust.Some? && p.trust.value < th.minimum;
    assert HardFires(DenyExternalWrite, s) <==> s.externalWrite && !s.belowSensitive;
    assert HardFires(DenyAdminScope, s) <==> Scope(p, session, tool, resource) in ADMIN_SCOPES;
  }

  /** The context of a gateway question compiles, and the engine answers it with an executable decision. */
  predicate Answered(
    p: Picture, session: string, tool: string, resource: string, binding: Option<BindingRec>, snapshotId: nat, commit: string,
    th: Thresholds)
  {
    var r := ReadInputs(GatewayCtx(p, session, tool, resource, binding, snapshotId, commit), th);
    r.Ok? && Executes(r.value)
  }

  /** The gateway's answer is executable exactly when its tables say so: nothing else in the context can change it. */
  lemma GatewayExecutesIff(
    p: Picture, session: string, tool: string, resource: string, binding: Option<BindingRec>, snapshotId: nat, commit: string,
    th: Thresholds)
    ensures Answered(p, session, tool, resource, binding, snapshotId, commit, th) <==> Runs(p, session, tool, resource, th)
  {
    hide ReadInputs, GatewayCtx, Reads, ReadsRest, Executes, Runs, Grants, DatalogSignals;
    GatewayReads(p, session, tool, resource, binding, snapshotId, commit, th);
    GatewayReadsRest(p, session, tool, resource, binding, snapshotId, commit, th);
    var i := ReadInputs(GatewayCtx(p, session, tool, resource, binding, snapshotId, commit), th).value;
    ExecutesIffGrants(i);
    RunsIff(i, p, session, tool, resource, th);
  }

  /**
   * The flags that would excuse them are never sent, so no external write and no call under an admin scope is ever
   * executable through the gateway, whatever grants exist.
   */
  lemma NeverThroughTheGateway(
    p: Picture, session: string, tool: string, resource: string, binding: Option<BindingRec>, snapshotId: nat, commit: string,
    th: Thresholds)
    requires (p.res.external && p.ts.accessKind == "write") || p.ts.scope in ADMIN_SCOPES
    ensures !Answered(p, session, tool, resource, binding, snapshotId, commit, th)
  {
    hide Answered;
    assert "" !in ADMIN_SCOPES;
    GatewayExecutesIff(p, session, tool, resource, binding, snapshotId, commit, th);
  }

  // ---- Without a grant ----

  lemma WithGrant(p: Picture, session: string, tool: string, resource: string, th: Thresholds)
    requires !p.grantPresent
    ensures var granted := p.(grantPresent := true);
      Runs(p, session, tool, resource, th)
      <==> Runs(granted, session, tool, resource, th) && p.mode.Some? && p.mode.value.approvalMode == "auto_approve"
           && LowStakes(Risk(tool), Sensitivity(p), p.res.external)
  {
    hide NonEmpty, Risk, LowStakes;
  }

  /** No fact says how dangerous the tool or how sensitive the resource is, so the defaults decide. */
  lemma StakesAreLow(p: Picture, tool: string)
    ensures LowStakes(Risk(tool), Sensitivity(p), p.res.external)
       <==> tool != "slack.post_message" && !p.res.external && p.res.sensitivity in {"", "low", "normal"}
  {
  }

  /**
   * Without a live grant, a question is answered executably exactly when it would be with one, the recipe's scope is
   * auto-approved, the resource is internal and of low or normal sensitivity, and the tool does not post to Slack.
   */
  lemma AutoApprovedExactlyWhen(
    p: Picture, session: string, tool: string, resource: string, binding: Option<BindingRec>, snapshotId: nat, commit: string,
    th: Thresholds)
    requires !p.grantPresent
    ensures Answered(p, session, tool, resource, binding, snapshotId, commit, th) <==>
      && Answered(p.(grantPresent := true), session, tool, resource, binding, snapshotId, commit, th)
      && p.mode.Some? && p.mode.value.approvalMode == "auto_approve"
      && !p.res.external && p.res.sensitivity in {"", "low", "normal"} && tool != "slack.post_message"
  {
    hide Answered, Runs, LowStakes;
    GatewayExecutesIff(p, session, tool, resource, binding, snapshotId, commit, th);
    GatewayExecutesIff(p.(grantPresent := true), session, tool, resource, binding, snapshotId, commit, th);
    WithGrant(p, session, tool, resource, th);
    StakesAreLow(p, tool);
  }

  /** No identifier in the context path is empty, except perhaps the team of the resource. */
  ghost predicate FullyNamed(p: Picture, session: string, tool: string, resource: string) {
    && session != "" && tool != "" && resource != "" && p.ts.scope != "" && p.s.user != "" && p.s.agent != ""
    && p.recipe.Some? && p.recipe.value.recipe != ""
  }

  lemma HeadStays(x: string, rest: seq<string>)
    requires x != ""
    ensures NonEmpty([x] + rest) == [x] + NonEmpty(rest)
  {
    assert ([x] + rest)[1..] == rest;
  }

  lemma NamedPath(p: Picture, session: string, tool: string, resource: string)
    requires FullyNamed(p, session, tool, resource)
    ensures PathAt(PathOf(p, session, tool, resource), 1, "recipe_unknown") == p.recipe.value.recipe
    ensures PathAt(PathOf(p, session, tool, resource), 3, "scope:unknown") == p.ts.scope
  {
    hide NonEmpty;
    var rest := [resource, p.res.team, p.s.user, p.s.agent];
    var scoped := [p.ts.scope] + rest;
    var called := [tool] + scoped;
    var known := [p.recipe.value.recipe] + called;
    HeadStays(p.ts.scope, rest);
    HeadStays(tool, scoped);
    HeadStays(p.recipe.value.recipe, called);
    HeadStays(session, known);
    assert [session, p.recipe.value.recipe, tool, p.ts.scope, resource, p.res.team, p.s.user, p.s.agent] == [session] + known;
  }

  /** The whole condition, for a question and tables without empty identifiers and a session with a team. */
  lemma NamedExecutesExactlyWhen(
    p: Picture, session: string, tool: string, resource: string, binding: Option<BindingRec>, snapshotId: nat, commit: string,
    th: Thresholds)
    requires FullyNamed(p, session, tool, resource) && p.s.team != ""
    ensures Answered(p, session, tool, resource, binding, snapshotId, commit, th) <==>
      && p.delegated && p.predicts && p.recipe.value.recipe != "recipe_unknown"
      && p.s.team == (if p.res.team != "" then p.res.team else "team_mismatch")
      && (p.similarity.Some? ==> p.similarity.value.reified && p.similarity.value.score >= 820)
      && (p.trust.Some? ==> p.trust.value >= th.minimum)
      && p.ts.scope !in {"admin", "linear:admin", "slack:admin", "scopememory:admin"}
      && !(p.res.external && p.ts.accessKind == "write")
      && (p.grantPresent
          || (p.mode.Some? && p.mode.value.approvalMode == "auto_approve" && !p.res.external
              && p.res.sensitivity in {"", "low", "normal"} && tool != "slack.post_message"))
  {
    hide Answered, PathOf, LowStakes;
    GatewayExecutesIff(p, session, tool, resource, binding, snapshotId, commit, th);
    NamedPath(p, session, tool, resource);
    StakesAreLow(p, tool);
  }
}
