/**
 * What an executable answer of the gateway says about the tables: authorize (platform/graph_fallback.py), compile and
 * evaluate (platform/cozo_policy.py) in one step.
 */
module GatewayJustification {
  import opened Wrappers
  import opened Json
  import opened PolicyRows
  import opened PolicyCompile
  import opened GrantLifecycle
  import opened GraphFallback
  import opened GatewayKeys
  import opened GatewayContext
  import opened GatewayExecutes

  /** The tables hold what lets the session use the tool on the resource. */
  ghost predicate Justified(data: GraphData, p: Picture, session: string, tool: string, resource: string, now: nat) {
    && (exists d :: d in data.catalog.delegations && d.session == session)
    && p.recipe.Some? && p.recipe.value in data.catalog.recipes
    && RecipeToolRec(p.recipe.value.recipe, tool) in data.catalog.recipeTools
    && (StoredHit(data.similarity, session, p.recipe.value.recipe)
        || (!StoredRow(data.similarity, session, p.recipe.value.recipe) && p.recipe == FallbackRecipe(data.catalog, p.s)))
    && PathOf(p, session, tool, resource) != []
    && (ActiveGrantFor(data.grants, session, p.ts.scope, resource, now)
        || RecipeScopeRec(p.recipe.value.recipe, p.ts.scope, "auto_approve") in data.catalog.recipeScopes)
  }

  /** A similarity row of the session for the recipe. */
  ghost predicate StoredRow(rows: seq<SimilarityRec>, session: string, recipe: string) {
    exists x :: x in rows && x.session == session && x.recipe == recipe
  }

  /** A reified one with a score of at least 0.82. */
  ghost predicate StoredHit(rows: seq<SimilarityRec>, session: string, recipe: string) {
    exists x :: x in rows && x.session == session && x.recipe == recipe && x.reified && x.score >= MIN_RECIPE_SCORE
  }

  ghost predicate ActiveGrantFor(grants: seq<Grant>, session: string, scope: string, resource: string, now: nat) {
    exists g :: g in grants && g.session == session && g.scope == scope && g.resource == resource && SqlActive(g, now)
  }

  /** The cached copy reports a grant exactly when one of its rows is active in the sense of the SQL queries. */
  lemma GrantPresentIsActive(grants: seq<Grant>, session: string, scope: string, resource: string, now: nat, parse: Parsers)
    ensures GrantPresent(grants, session, scope, resource, now, parse) <==> ActiveGrantFor(grants, session, scope, resource, now)
  {
  }

  /** An executable answer is justified by the tables. */
  lemma ExecutableIsJustified(
    data: GraphData, session: string, tool: string, resource: string, now: nat, parse: Parsers, p: Picture,
    binding: Option<BindingRec>, snapshotId: nat, commit: string, th: Thresholds)
    requires Look(data, session, tool, resource, now, parse) == Ok(p)
    requires Answered(p, session, tool, resource, binding, snapshotId, commit, th)
    ensures Justified(data, p, session, tool, resource, now)
  {
    hide GrantPresent, PathOf, Look, Runs, Answered, StoredRow, StoredHit, FallbackRecipe;
    GatewayExecutesIff(p, session, tool, resource, binding, snapshotId, commit, th);
    RunsParts(p, session, tool, resource, th);
    GrantPresentIsActive(data.grants, session, p.ts.scope, resource, now, parse);
    FoundRows(data, session, tool, resource, now, parse, p);
    ExecutableScoreIff(data, session, tool, resource, now, parse, p, binding, snapshotId, commit, th);
    if !StoredRow(data.similarity, session, p.recipe.value.recipe) {
      UnstoredIsFallback(data, session, tool, resource, now, parse, p);
    }
  }

  lemma RunsParts(p: Picture, session: string, tool: string, resource: string, th: Thresholds)
    requires Runs(p, session, tool, resource, th)
    ensures p.delegated && p.predicts && PathOf(p, session, tool, resource) != []
    ensures p.similarity.Some? ==> p.similarity.value.score >= MIN_RECIPE_SCORE && p.similarity.value.reified
    ensures p.grantPresent || (p.mode.Some? && p.mode.value.approvalMode == "auto_approve")
  {
    hide PathOf;
  }

  /** Where the parts of a picture come from. */
  lemma FoundRows(data: GraphData, session: string, tool: string, resource: string, now: nat, parse: Parsers, p: Picture)
    requires Look(data, session, tool, resource, now, parse) == Ok(p)
    ensures p.delegated ==> exists d :: d in data.catalog.delegations && d.session == session
    ensures p.predicts ==> p.recipe.Some? && RecipeToolRec(p.recipe.value.recipe, tool) in data.catalog.recipeTools
    ensures p.recipe.Some? ==> p.recipe.value in data.catalog.recipes
    ensures p.mode.Some? ==> p.mode.value in data.catalog.recipeScopes && p.recipe.Some?
                             && p.mode.value.recipe == p.recipe.value.recipe && p.mode.value.scope == p.ts.scope
    ensures p.grantPresent == GrantPresent(data.grants, session, p.ts.scope, resource, now, parse)
    ensures FindResource(data.catalog, resource) == Some(p.res) && FindSession(data.catalog, session) == Some(p.s)
    ensures FindToolScope(data.catalog, tool) == Some(p.ts)
  {
    hide GrantPresent, MatchedRecipe;
  }

  /** The similarity row of a picture is a row for its recipe, and there is one whenever the table has any. */
  lemma SimilarityFound(data: GraphData, session: string, tool: string, resource: string, now: nat, parse: Parsers, p: Picture)
    requires Look(data, session, tool, resource, now, parse) == Ok(p) && p.recipe.Some?
    ensures p.similarity.Some? <==> StoredRow(data.similarity, session, p.recipe.value.recipe)
    ensures p.similarity.Some? ==> p.similarity.value in data.similarity
                                   && p.similarity.value.session == session && p.similarity.value.recipe == p.recipe.value.recipe
  {
    hide GrantPresent, MatchedRecipe;
  }

  /**
   * The score behind an executable answer: the tables hold a reified hit of at least 0.82 for the matched recipe if and
   * only if they hold any row for it. Without a row the score is made up.
   */
  lemma ExecutableScoreIff(
    data: GraphData, session: string, tool: string, resource: string, now: nat, parse: Parsers, p: Picture,
    binding: Option<BindingRec>, snapshotId: nat, commit: string, th: Thresholds)
    requires Look(data, session, tool, resource, now, parse) == Ok(p)
    requires Answered(p, session, tool, resource, binding, snapshotId, commit, th)
    ensures p.recipe.Some?
    ensures StoredHit(data.similarity, session, p.recipe.value.recipe) <==> StoredRow(data.similarity, session, p.recipe.value.recipe)
  {
    hide Look, Runs, Answered;
    GatewayExecutesIff(p, session, tool, resource, binding, snapshotId, commit, th);
    RunsParts(p, session, tool, resource, th);
    FoundRows(data, session, tool, resource, now, parse, p);
    SimilarityFound(data, session, tool, resource, now, parse, p);
  }

  /** A matched recipe without a row is the fallback, which may have any status. */
  lemma UnstoredIsFallback(data: GraphData, session: string, tool: string, resource: string, now: nat, parse: Parsers, p: Picture)
    requires Look(data, session, tool, resource, now, parse) == Ok(p) && p.recipe.Some?
    requires !StoredRow(data.similarity, session, p.recipe.value.recipe)
    ensures p.recipe == FallbackRecipe(data.catalog, p.s)
  {
    hide GrantPresent, FallbackRecipe, RecipeById;
  }

  /** With no matched recipe, no answer is executable. */
  lemma NoRecipeNeverExecutes(
    data: GraphData, session: string, tool: string, resource: string, now: nat, parse: Parsers, p: Picture,
    binding: Option<BindingRec>, snapshotId: nat, commit: string, th: Thresholds)
    requires Look(data, session, tool, resource, now, parse) == Ok(p)
    requires p.recipe.None?
    ensures !Answered(p, session, tool, resource, binding, snapshotId, commit, th)
  {
    hide Look, Answered;
    FoundRows(data, session, tool, resource, now, parse, p);
    GatewayExecutesIff(p, session, tool, resource, binding, snapshotId, commit, th);
  }

  // ---- Whose resource ----

  /**
   * For an executable answer, the resource belongs to the session's team unless exactly one of the two is recorded
   * without a team: the compiler reads an empty team id as an absent one.
   */
  lemma ExecutableOwnershipIff(
    p: Picture, session: string, tool: string, resource: string, binding: Option<BindingRec>, snapshotId: nat, commit: string, th: Thresholds)
    requires Answered(p, session, tool, resource, binding, snapshotId, commit, th)
    ensures p.res.team == p.s.team <==> (p.res.team == "" <==> p.s.team == "")
  {
    hide Answered;
    GatewayExecutesIff(p, session, tool, resource, binding, snapshotId, commit, th);
  }

  /** A session whose row lost its team. */
  function Teamless(p: Picture): Picture {
    p.(s := p.s.(team := ""))
  }

  lemma UpdateOverUpdate(facts: Facts, a: Value, b: Value, c: Value, a1: Value, b1: Value)
    ensures facts["session_team" := a1]["same_team" := b1]["grant_present" := c]
         == facts["session_team" := a]["same_team" := b]["grant_present" := c]["session_team" := a1]["same_team" := b1]
  {
  }

  lemma GatewayFactsCommute(facts: Facts, key: string, value: Value, binding: Option<BindingRec>, snapshotId: nat, commit: string)
    requires key !in ADDED_KEYS
    ensures GatewayFacts(facts[key := value], binding, snapshotId, commit) == GatewayFacts(facts, binding, snapshotId, commit)[key := value]
  {
  }

  /** Losing the team changes two facts and leaves the context path alone. */
  lemma TeamlessFacts(
    p: Picture, session: string, tool: string, resource: string, binding: Option<BindingRec>, snapshotId: nat, commit: string)
    requires p.res.team != ""
    ensures GatewayCtx(Teamless(p), session, tool, resource, binding, snapshotId, commit)
         == var ctx := GatewayCtx(p, session, tool, resource, binding, snapshotId, commit);
            ctx.(facts := ctx.facts["session_team" := Str("")]["same_team" := Bool(false)])
  {
    hide GatewayFacts, OtherFacts, NonEmpty;
    var base := OtherFacts(p, session, tool, resource);
    assert OtherFacts(Teamless(p), session, tool, resource) == base by {
      TeamlessOtherFacts(p, session, tool, resource);
    }
    var facts := FactsOf(p, session, tool, resource);
    assert FactsOf(Teamless(p), session, tool, resource) == facts["session_team" := Str("")]["same_team" := Bool(false)] by {
      UpdateOverUpdate(base, Str(p.s.team), Bool(p.res.team == p.s.team), Bool(p.grantPresent), Str(""), Bool(false));
    }
    assert "session_team" !in ADDED_KEYS && "same_team" !in ADDED_KEYS;
    GatewayFactsCommute(facts, "session_team", Str(""), binding, snapshotId, commit);
    GatewayFactsCommute(facts["session_team" := Str("")], "same_team", Bool(false), binding, snapshotId, commit);
  }

  lemma TeamlessOtherFacts(p: Picture, session: string, tool: string, resource: string)
    ensures OtherFacts(Teamless(p), session, tool, resource) == OtherFacts(p, session, tool, resource)
  {
  }

  /** The owner is the sixth entry of a fully named context path. */
  lemma OwnerInPath(p: Picture, session: string, tool: string, resource: string)
    requires FullyNamed(p, session, tool, resource) && p.res.team != ""
    ensures PathAt(PathOf(p, session, tool, resource), 5, "team_unknown") == p.res.team
  {
    var all := [session, p.recipe.value.recipe, tool, p.ts.scope, resource, p.res.team, p.s.user, p.s.agent];
    NothingEmpty(all);
  }

  lemma {:induction false} NothingEmpty(texts: seq<string>)
    requires forall t :: t in texts ==> t != ""
    ensures NonEmpty(texts) == texts
  {
    if texts != [] {
      assert texts[0] in texts;
      forall t | t in texts[1..] ensures t in texts {
      }
      NothingEmpty(texts[1..]);
      assert texts == [texts[0]] + texts[1..];
    }
  }

  /** Both teams are still read as the owner. */
  lemma TeamlessIdentity(ctx: Context, owner: string)
    requires ctx.teamId == "" && ctx.resourceTeam == "" && PathAt(ctx.contextPath, 5, "team_unknown") == owner
    requires owner != "" && Holds(ctx.facts, "session_team", Str(owner)) && Holds(ctx.facts, "resource_team", Str(owner))
    ensures ReadIdentity(ctx.(facts := ctx.facts["session_team" := Str("")]["same_team" := Bool(false)])) == ReadIdentity(ctx)
  {
  }

  /** Two fact sets that agree on every read compile alike. */
  lemma SameReads(ctx: Context, facts: Facts, th: Thresholds)
    requires ReadIdentity(ctx.(facts := facts)) == ReadIdentity(ctx)
    requires OtherReadsAgree(ctx.facts, facts)
    requires Flag(ctx.facts, "grant_present", false) == Flag(facts, "grant_present", false)
    requires var id := ReadIdentity(ctx);
             && CredentialClass(id.tool, facts) == CredentialClass(id.tool, ctx.facts)
             && CredentialBinding(id.tool, id.scope, facts) == CredentialBinding(id.tool, id.scope, ctx.facts)
             && JudgeRows(id.session, id.tool, facts, JUDGE_KEYS) == JudgeRows(id.session, id.tool, ctx.facts, JUDGE_KEYS)
    requires ViolationKinds(facts) == ViolationKinds(ctx.facts)
    ensures ReadInputs(ctx.(facts := facts), th) == ReadInputs(ctx, th)
  {
    hide ViolationKinds, TextOr, Flag, OptionalFlag, CredentialClass, CredentialBinding, JudgeRows, ReadIdentity, FloatOf;
  }

  lemma GrantFlagUnaffected(facts: Facts)
    ensures var changed := facts["session_team" := Str("")]["same_team" := Bool(false)];
            Flag(changed, "grant_present", false) == Flag(facts, "grant_present", false)
  {
  }

  /** A context whose team facts are lost compiles to what it compiled to before. */
  lemma TeamlessCompilesAlike(ctx: Context, owner: string, th: Thresholds)
    requires ctx.teamId == "" && ctx.resourceTeam == "" && PathAt(ctx.contextPath, 5, "team_unknown") == owner
    requires owner != "" && Holds(ctx.facts, "session_team", Str(owner)) && Holds(ctx.facts, "resource_team", Str(owner))
    ensures ReadInputs(ctx.(facts := ctx.facts["session_team" := Str("")]["same_team" := Bool(false)]), th) == ReadInputs(ctx, th)
  {
    hide Holds, ViolationKinds, TextOr, Flag, OptionalFlag, CredentialClass, CredentialBinding, JudgeRows, ReadIdentity,
         FloatOf, ReadInputs, PathAt;
    var id := ReadIdentity(ctx);
    var half := ctx.facts["session_team" := Str("")];
    var facts := half["same_team" := Bool(false)];
    TeamlessIdentity(ctx, owner);
    OtherReadsUnaffected(ctx.facts, "session_team", Str(""));
    OtherReadsUnaffected(half, "same_team", Bool(false));
    DerivedReadsUnaffected(ctx.facts, "session_team", Str(""), id.session, id.tool, id.scope);
    DerivedReadsUnaffected(half, "same_team", Bool(false), id.session, id.tool, id.scope);
    GrantFlagUnaffected(ctx.facts);
    SameReads(ctx, facts, th);
  }

  lemma GatewayOwner(
    p: Picture, session: string, tool: string, resource: string, binding: Option<BindingRec>, snapshotId: nat, commit: string)
    ensures var ctx := GatewayCtx(p, session, tool, resource, binding, snapshotId, commit);
            && ctx.teamId == "" && ctx.resourceTeam == "" && ctx.contextPath == PathOf(p, session, tool, resource)
            && Holds(ctx.facts, "session_team", Str(p.s.team)) && Holds(ctx.facts, "resource_team", Str(p.res.team))
  {
    hide FactsOf, GatewayFacts, PathOf;
    GatewayFactsHold(p, session, tool, resource, binding, snapshotId, commit);
  }

  /**
   * A session without a team is answered as if it belonged to the team that owns the resource: the sixth entry of the
   * context path stands in for the missing team, and that entry is the owner.
   */
  lemma TeamlessReadsAsOwner(
    p: Picture, session: string, tool: string, resource: string, binding: Option<BindingRec>, snapshotId: nat,
    commit: string, th: Thresholds)
    requires FullyNamed(p, session, tool, resource)
    requires p.res.team != "" && p.s.team == p.res.team
    ensures ReadInputs(GatewayCtx(Teamless(p), session, tool, resource, binding, snapshotId, commit), th)
         == ReadInputs(GatewayCtx(p, session, tool, resource, binding, snapshotId, commit), th)
  {
    hide ReadInputs, GatewayCtx, GraphFacts, PathOf, PathAt, FullyNamed;
    TeamlessFacts(p, session, tool, resource, binding, snapshotId, commit);
    OwnerInPath(p, session, tool, resource);
    GatewayOwner(p, session, tool, resource, binding, snapshotId, commit);
    TeamlessCompilesAlike(GatewayCtx(p, session, tool, resource, binding, snapshotId, commit), p.res.team, th);
  }
}
