/**
 * Who and what a compiled gateway question names (platform/graph_fallback.py, platform/gateway_service.py,
 * platform/cozo_policy.py): the path, the session, the call and the credential, traced from the rows of the tables.
 */
module GatewayNames {
  import opened Wrappers
  import opened Json
  import opened PyText
  import opened PolicyRows
  import opened PolicyCompile
  import opened PolicyDecide
  import opened PolicyReads
  import opened GraphFallback
  import opened GatewayContext
  import opened GatewayKeys
  import opened Gateway

  // ---- The path ----

  lemma KeepsFirst(text: string, rest: seq<string>)
    ensures NonEmpty([text] + rest) == (if text != "" then [text] else []) + NonEmpty(rest)
  {
    assert ([text] + rest)[1..] == rest;
  }

  lemma KeepsAll(texts: seq<string>)
    requires forall k :: 0 <= k < |texts| ==> texts[k] != ""
    ensures NonEmpty(texts) == texts
  {
  }

  /** With nothing missing, the path goes from the session over the recipe and the call to the owner and the asker. */
  lemma PathIsFull(p: Picture, session: string, tool: string, resource: string)
    requires p.recipe.Some? && session != "" && p.recipe.value.recipe != "" && tool != "" && p.ts.scope != "" && resource != ""
    requires p.res.team != "" && p.s.user != "" && p.s.agent != ""
    ensures PathOf(p, session, tool, resource)
         == [session, p.recipe.value.recipe, tool, p.ts.scope, resource, p.res.team, p.s.user, p.s.agent]
  {
    KeepsAll([session, p.recipe.value.recipe, tool, p.ts.scope, resource, p.res.team, p.s.user, p.s.agent]);
  }

  /** Without a recipe, everything else moves up by one place. */
  lemma PathWithoutRecipe(p: Picture, session: string, tool: string, resource: string)
    requires p.recipe.None? && session != "" && tool != "" && p.ts.scope != "" && resource != ""
    requires p.res.team != "" && p.s.user != "" && p.s.agent != ""
    ensures PathOf(p, session, tool, resource) == [session, tool, p.ts.scope, resource, p.res.team, p.s.user, p.s.agent]
  {
    var rest := [tool, p.ts.scope, resource, p.res.team, p.s.user, p.s.agent];
    assert [session, "", tool, p.ts.scope, resource, p.res.team, p.s.user, p.s.agent] == [session] + ([""] + rest);
    assert [session, tool, p.ts.scope, resource, p.res.team, p.s.user, p.s.agent] == [session] + ([] + rest);
    KeepsFirst(session, [""] + rest);
    KeepsFirst("", rest);
    KeepsAll(rest);
  }

  /** A request that follows from an escalation names the matched recipe. */
  lemma PathNamesRecipe(p: Picture, session: string, tool: string, resource: string, name: string)
    requires p.recipe.Some? && p.recipe.value.recipe == "recipe_" + name && session != ""
    ensures RecipeFromPath(PathOf(p, session, tool, resource)) == Some("recipe_" + name)
  {
    var id := p.recipe.value.recipe;
    var rest := [tool, p.ts.scope, resource, p.res.team, p.s.user, p.s.agent];
    assert [session, id, tool, p.ts.scope, resource, p.res.team, p.s.user, p.s.agent] == [session] + ([id] + rest);
    KeepsFirst(session, [id] + rest);
    KeepsFirst(id, rest);
    assert |id| >= 7;
    assert PathOf(p, session, tool, resource) == [session] + ([id] + NonEmpty(rest));
    hide NonEmpty;
  }

  // ---- The session and the call ----

  /** The facts that name the asker and the kind of access. */
  predicate NamesAsker(facts: Facts, p: Picture) {
    && Holds(facts, "user_id", Str(p.s.user)) && Holds(facts, "agent_id", Str(p.s.agent))
    && Holds(facts, "goal_class", Str(p.s.goalClass)) && Holds(facts, "access_kind", Str(p.ts.accessKind))
  }

  lemma GraphNamesAsker(p: Picture, session: string, tool: string, resource: string)
    ensures NamesAsker(FactsOf(p, session, tool, resource), p)
  {
  }

  lemma AskerKeys(key: string)
    requires key in {"user_id", "agent_id", "goal_class", "access_kind"}
    ensures key !in ADDED_KEYS
  {
  }

  lemma GatewayNamesAsker(p: Picture, session: string, tool: string, resource: string, binding: Option<BindingRec>, snapshotId: nat, commit: string)
    ensures NamesAsker(GatewayFacts(FactsOf(p, session, tool, resource), binding, snapshotId, commit), p)
  {
    hide FactsOf, GatewayFacts, ADDED_KEYS;
    var facts := FactsOf(p, session, tool, resource);
    GraphNamesAsker(p, session, tool, resource);
    forall key | key in {"user_id", "agent_id", "goal_class", "access_kind"}
      ensures key in facts ==> Holds(GatewayFacts(facts, binding, snapshotId, commit), key, facts[key])
    {
      AskerKeys(key);
      GatewayKeepsFacts(facts, binding, snapshotId, commit, key);
    }
  }

  /** Every name that the tables know is in the compiled record, each in its place. */
  predicate NamedAfter(k: Compiled, p: Picture, session: string, tool: string, resource: string) {
    && (session != "" ==> k.session.session == session) && (tool != "" ==> k.intent.tool == tool)
    && (resource != "" ==> k.intent.resource == resource)
    && (p.s.user != "" ==> k.session.user == p.s.user) && (p.s.agent != "" ==> k.session.agent == p.s.agent)
    && (p.s.goalClass != "" ==> k.session.goalClass == p.s.goalClass) && (p.s.team != "" ==> k.session.team == p.s.team)
    && (p.ts.scope != "" ==> k.intent.scope == p.ts.scope) && (p.ts.accessKind != "" ==> k.intent.accessKind == p.ts.accessKind)
  }

  lemma IdentityNamed(ctx: Context, p: Picture)
    requires NamesAsker(ctx.facts, p) && ctx.userId == "" && ctx.agentId == "" && ctx.goalClass == "" && ctx.accessKind == ""
    ensures var id := ReadIdentity(ctx);
      && (p.s.user != "" ==> id.user == p.s.user) && (p.s.agent != "" ==> id.agent == p.s.agent)
      && (p.s.goalClass != "" ==> id.goalClass == p.s.goalClass) && (p.ts.accessKind != "" ==> id.accessKind == p.ts.accessKind)
      && (ctx.sessionId != "" ==> id.session == ctx.sessionId) && (ctx.toolId != "" ==> id.tool == ctx.toolId)
      && (ctx.resourceId != "" ==> id.resource == ctx.resourceId)
  {
  }

  lemma CompiledFromIdentity(sha: Value -> string, th: Thresholds, ctx: Context, k: Compiled)
    requires Compile(sha, th, ctx) == Ok(k)
    ensures var id := ReadIdentity(ctx);
      && k.session.session == id.session && k.session.user == id.user && k.session.agent == id.agent && k.session.goalClass == id.goalClass
      && k.session.team == id.team && k.intent.tool == id.tool && k.intent.resource == id.resource && k.intent.scope == id.scope
      && k.intent.accessKind == id.accessKind
  {
    hide Truthy, TextOf, JudgeRows, ViolationKinds, CredentialClass, CredentialBinding, ReadIdentity, ReadCarried, RowsOf, RowsJson,
         FactStrings, FactSetTree, DefaultRisk;
  }

  /** The record that is sealed for a gateway question names the rows that the question picked out. */
  lemma QuestionIsNamed(
    sha: Value -> string, th: Thresholds, p: Picture, session: string, tool: string, resource: string, binding: Option<BindingRec>,
    snapshotId: nat, commit: string, k: Compiled)
    requires Compile(sha, th, GatewayCtx(p, session, tool, resource, binding, snapshotId, commit)) == Ok(k)
    ensures NamedAfter(k, p, session, tool, resource)
  {
    hide FactsOf, GatewayFacts, PathOf, ReadIdentity, Compile, ReadTeam;
    var ctx := GatewayCtx(p, session, tool, resource, binding, snapshotId, commit);
    GatewayNamesAsker(p, session, tool, resource, binding, snapshotId, commit);
    GatewayFactsHold(p, session, tool, resource, binding, snapshotId, commit);
    IdentityNamed(ctx, p);
    GatewayIdentity(ctx, p, session, tool, resource);
    CompiledFromIdentity(sha, th, ctx, k);
    TeamRead(p, session, tool, resource);
  }

  lemma TeamRead(p: Picture, session: string, tool: string, resource: string)
    ensures p.s.team != "" ==> ReadTeam(p, session, tool, resource) == p.s.team
  {
    hide PathOf;
  }

  // ---- The credential ----

  predicate FullBinding(b: BindingRec) {
    b.credentialRef != "" && b.provider != "" && b.credentialClass != "" && b.injectionMode != "" && b.ownerTeam != ""
  }

  /** The facts that describe a bound credential; the graph has none of its own. */
  predicate DescribesCredential(facts: Facts, b: BindingRec) {
    && Holds(facts, "credential_required", Bool(true)) && Holds(facts, "credential_class", Str(b.credentialClass))
    && Holds(facts, "credential_binding_available", Bool(true)) && Holds(facts, "credential_binding_id", Str(b.credentialRef))
    && Holds(facts, "credential_ref", Str(b.credentialRef)) && Holds(facts, "credential_provider", Str(b.provider))
    && Holds(facts, "credential_injection_mode", Str(b.injectionMode)) && Holds(facts, "credential_owner_team", Str(b.ownerTeam))
    && Holds(facts, "secret_exposed_to_agent", Bool(false)) && "credential_ref_status" !in facts
  }

  /** A bound credential is required under its class, and its row is active, names the binding and exposes nothing. */
  lemma CredentialIsNamed(tool: string, scope: string, facts: Facts, b: BindingRec)
    requires DescribesCredential(facts, b) && FullBinding(b)
    ensures CredentialClass(tool, facts) == Some(b.credentialClass)
    ensures CredentialBinding(tool, scope, facts)
         == Some(BindingRow(b.credentialRef, tool, scope, b.credentialRef, b.provider, "active", b.injectionMode, b.ownerTeam, false))
  {
  }

  lemma RequirementFacts(facts: Facts, b: BindingRec)
    ensures var f := WithBinding(facts, Some(b));
      && Holds(f, "credential_required", Bool(true)) && Holds(f, "credential_class", Str(b.credentialClass))
      && Holds(f, "credential_binding_available", Bool(true)) && Holds(f, "secret_exposed_to_agent", Bool(false))
      && ("credential_ref_status" in f <==> "credential_ref_status" in facts)
  {
  }

  lemma BindingFacts(facts: Facts, b: BindingRec)
    ensures var f := WithBinding(facts, Some(b));
      && Holds(f, "credential_binding_id", Str(b.credentialRef)) && Holds(f, "credential_ref", Str(b.credentialRef))
      && Holds(f, "credential_provider", Str(b.provider)) && Holds(f, "credential_injection_mode", Str(b.injectionMode))
      && Holds(f, "credential_owner_team", Str(b.ownerTeam))
  {
  }

  const CREDENTIAL_KEYS: set<string> := {
    "credential_required", "credential_class", "credential_binding_available", "secret_exposed_to_agent", "credential_ref_status",
    "credential_binding_id", "credential_ref", "credential_provider", "credential_injection_mode", "credential_owner_team"}

  lemma StartsOtherwise(key: string)
    requires key in CREDENTIAL_KEYS
    ensures |key| > 4 && (key[0] == 'c' || key[0] == 's') && key[1] != 'o'
  {
  }

  lemma SnapshotKeeps(facts: Facts, binding: Option<BindingRec>, snapshotId: nat, commit: string, key: string)
    requires |key| > 4 && (key[0] == 'c' || key[0] == 's') && key[1] != 'o'
    ensures key in GatewayFacts(facts, binding, snapshotId, commit) <==> key in WithBinding(facts, binding)
    ensures key in WithBinding(facts, binding) ==> GatewayFacts(facts, binding, snapshotId, commit)[key] == WithBinding(facts, binding)[key]
  {
    hide WithBinding;
  }

  /** The question about a call with a bound credential describes it. */
  lemma BindingDescribes(facts: Facts, b: BindingRec, snapshotId: nat, commit: string)
    requires "credential_ref_status" !in facts
    ensures DescribesCredential(GatewayFacts(facts, Some(b), snapshotId, commit), b)
  {
    hide WithBinding, GatewayFacts;
    RequirementFacts(facts, b);
    BindingFacts(facts, b);
    forall key | key in CREDENTIAL_KEYS
      ensures key in GatewayFacts(facts, Some(b), snapshotId, commit) <==> key in WithBinding(facts, Some(b))
      ensures key in WithBinding(facts, Some(b)) ==>
                GatewayFacts(facts, Some(b), snapshotId, commit)[key] == WithBinding(facts, Some(b))[key]
    {
      StartsOtherwise(key);
      SnapshotKeeps(facts, Some(b), snapshotId, commit, key);
    }
  }

  lemma GraphHasNoStatus(p: Picture, session: string, tool: string, resource: string)
    ensures "credential_ref_status" !in FactsOf(p, session, tool, resource)
  {
    hide FactsOf;
    if "credential_ref_status" in FactsOf(p, session, tool, resource) {
      GraphKeys(p, session, tool, resource, "credential_ref_status");
    }
  }

  /** The credential that is bound to a gateway question reaches the rows of the policy unchanged. */
  lemma QuestionNamesCredential(
    th: Thresholds, p: Picture, session: string, tool: string, resource: string, b: BindingRec, snapshotId: nat, commit: string, i: Inputs)
    requires ReadInputs(GatewayCtx(p, session, tool, resource, Some(b), snapshotId, commit), th) == Ok(i) && FullBinding(b)
    ensures i.credentialClass == Some(b.credentialClass)
    ensures i.binding
         == Some(BindingRow(b.credentialRef, i.tool, i.scope, b.credentialRef, b.provider, "active", b.injectionMode, b.ownerTeam, false))
  {
    hide FactsOf, GatewayFacts, PathOf, ReadInputs, DescribesCredential, CredentialClass, CredentialBinding, TextOr;
    GraphHasNoStatus(p, session, tool, resource);
    BindingDescribes(FactsOf(p, session, tool, resource), b, snapshotId, commit);
    var ctx := GatewayCtx(p, session, tool, resource, Some(b), snapshotId, commit);
    ApprovalRead(ctx, th, i);
    CredentialIsNamed(i.tool, i.scope, ctx.facts, b);
  }
}
