/**
 * The reference policy (demo/rebac.py) on the tables of the gateway: what it looks up, and which of the gateway's
 * executable answers it allows.
 */
module DemoTables {
  import opened Wrappers
  import opened PolicyTable
  import opened PolicyRows
  import opened GrantLifecycle
  import opened GraphFallback
  import opened DemoPolicy
  import opened GatewayContext
  import opened GatewayExecutes
  import opened GatewayJustification
  import opened Gateway
  import opened GatewayRecipes

  /** An accepted recipe for the goal class of the session's team. */
  predicate Suits(x: RecipeRec, s: SessionRec) {
    x.goalClass == s.goalClass && x.team == s.team && x.status == "accepted"
  }

  /** A row that `LIMIT 1` without an order may return. */
  ghost predicate MayPick(c: Catalog, s: SessionRec, recipe: Option<RecipeRec>) {
    match recipe
    case Some(x) => x in c.recipes && Suits(x, s)
    case None => forall x :: x in c.recipes ==> !Suits(x, s)
  }

  /** The delegation names the user and the agent of the session. */
  predicate Delegated(c: Catalog, s: SessionRec) {
    DelegationRec(s.session, s.user, s.agent) in c.delegations
  }

  /** Any row of the grants table counts, live or not. */
  predicate AnyGrant(grants: seq<Grant>, session: string, scope: string, resource: string) {
    exists g :: g in grants && g.session == session && g.scope == scope && g.resource == resource
  }

  /** The queries of `authorize` over the catalog and the whole grants table, once the session is found. */
  function DemoFactsOf(
    c: Catalog, grants: seq<Grant>, s: SessionRec, tool: string, resource: string, recipe: Option<RecipeRec>): DemoFacts
  {
    var res, ts := FindResource(c, resource), FindToolScope(c, tool);
    if res.None? || ts.None? then DemoFacts(true, Delegated(c, s), res.Some?, ts.Some?, false, false, false, "", false, None)
    else
      var mode := ScopeMode(c, recipe, ts.value.scope);
      DemoFacts(
        sessionKnown := true, delegated := Delegated(c, s), resourceKnown := true, toolKnown := true,
        sameTeam := res.value.team == s.team, predictsTool := Predicts(c, recipe, tool), external := res.value.external,
        accessKind := ts.value.accessKind, grantPresent := AnyGrant(grants, s.session, ts.value.scope, resource),
        approvalMode := if mode.Some? then Some(mode.value.approvalMode) else None)
  }

  predicate DemoAllows(c: Catalog, grants: seq<Grant>, s: SessionRec, tool: string, resource: string, recipe: Option<RecipeRec>) {
    DemoAuthorize(DemoFactsOf(c, grants, s, tool, resource, recipe)).decision == Allow
  }

  /** The rows behind the facts about a known resource and a known tool; a grant counts whether or not it is live. */
  ghost predicate DemoReads(
    c: Catalog, grants: seq<Grant>, s: SessionRec, recipe: Option<RecipeRec>, res: ResourceRec, ts: ToolScopeRec, f: DemoFacts)
  {
    && res in c.resources && ts in c.toolScopes
    && (f.delegated <==> exists d :: d in c.delegations && d.session == s.session && d.user == s.user && d.agent == s.agent)
    && (f.sameTeam <==> res.team == s.team) && f.external == res.external && f.accessKind == ts.accessKind
    && (f.grantPresent <==> exists g :: g in grants && g.session == s.session && g.scope == ts.scope && g.resource == res.resource)
    && (f.predictsTool <==> recipe.Some? && exists r :: r in c.recipeTools && r.recipe == recipe.value.recipe && r.tool == ts.tool)
    && (f.approvalMode.Some? ==> recipe.Some? && RecipeScopeRec(recipe.value.recipe, ts.scope, f.approvalMode.value) in c.recipeScopes)
    && (f.approvalMode.None? && recipe.Some? ==>
          forall r :: r in c.recipeScopes ==> r.recipe != recipe.value.recipe || r.scope != ts.scope)
  }

  /** What the reference policy looks up; an unknown resource or tool is told as such. */
  lemma DemoLooksUp(c: Catalog, grants: seq<Grant>, s: SessionRec, tool: string, resource: string, recipe: Option<RecipeRec>)
    ensures var f := DemoFactsOf(c, grants, s, tool, resource, recipe);
      && (f.resourceKnown <==> exists r :: r in c.resources && r.resource == resource)
      && (f.toolKnown <==> exists t :: t in c.toolScopes && t.tool == tool)
      && (f.resourceKnown && f.toolKnown ==>
            exists res: ResourceRec, ts: ToolScopeRec :: res.resource == resource && ts.tool == tool && DemoReads(c, grants, s, recipe, res, ts, f))
  {
    var res, ts := FindResource(c, resource), FindToolScope(c, tool);
    if res.Some? && ts.Some? {
      RowsRead(c, grants, s, tool, resource, recipe, res.value, ts.value);
    }
    hide DemoReads, ScopeMode, Predicts, AnyGrant, Delegated;
  }

  lemma RowsRead(
    c: Catalog, grants: seq<Grant>, s: SessionRec, tool: string, resource: string, recipe: Option<RecipeRec>, res: ResourceRec, ts: ToolScopeRec)
    requires FindResource(c, resource) == Some(res) && FindToolScope(c, tool) == Some(ts)
    ensures DemoReads(c, grants, s, recipe, res, ts, DemoFactsOf(c, grants, s, tool, resource, recipe))
  {
    hide FindResource, FindToolScope;
    if d :| d in c.delegations && d.session == s.session && d.user == s.user && d.agent == s.agent {
      assert d == DelegationRec(s.session, s.user, s.agent);
    }
    if recipe.Some? {
      if r :| r in c.recipeTools && r.recipe == recipe.value.recipe && r.tool == tool {
        assert r == RecipeToolRec(recipe.value.recipe, tool);
      }
    }
  }

  /** The lookups of the two policies about one question. */
  lemma SharedLookups(
    data: GraphData, s: SessionRec, tool: string, resource: string, now: nat, parse: Parsers, p: Picture)
    requires Look(data, s.session, tool, resource, now, parse) == Ok(p)
    ensures FindResource(data.catalog, resource) == Some(p.res) && FindToolScope(data.catalog, tool) == Some(p.ts)
    ensures p.predicts == Predicts(data.catalog, p.recipe, tool) && p.mode == ScopeMode(data.catalog, p.recipe, p.ts.scope)
    ensures p.grantPresent ==> AnyGrant(data.grants, s.session, p.ts.scope, resource)
  {
    hide MatchedRecipe, SimilarityOf;
  }

  /** With the same recipe, the reference policy allows an executable call of the owning team under its own delegation. */
  lemma SameRecipeAllows(
    data: GraphData, grants: seq<Grant>, s: SessionRec, tool: string, resource: string, now: nat, parse: Parsers, p: Picture,
    th: Thresholds)
    requires Look(data, s.session, tool, resource, now, parse) == Ok(p) && Runs(p, s.session, tool, resource, th)
    requires forall g :: g in data.grants ==> g in grants
    ensures DemoAllows(data.catalog, grants, s, tool, resource, p.recipe) <==> Delegated(data.catalog, s) && p.res.team == s.team
  {
    hide Look, FindResource, FindToolScope, Predicts, ScopeMode, Delegated, Sensitivity, Risk, Scope, ReadTeam, PathOf, LowStakes;
    SharedLookups(data, s, tool, resource, now, parse, p);
  }

  lemma NoRecipeDenies(c: Catalog, grants: seq<Grant>, s: SessionRec, tool: string, resource: string)
    ensures !DemoAllows(c, grants, s, tool, resource, None)
  {
  }

  /** The matched recipe of an executable answer that rests on a hit is one that the reference policy may pick. */
  lemma EarnedIsPicked(c: Catalog, s: SessionRec, p: Picture, recipe: Option<RecipeRec>)
    requires p.s == s && MatchedEarned(p, c) && p.recipe.value in c.recipes
    requires MayPick(c, s, recipe) && forall a, b :: a in c.recipes && b in c.recipes && Suits(a, s) && Suits(b, s) ==> a == b
    ensures recipe == p.recipe
  {
    hide SessionHits, HitScore;
    assert Suits(p.recipe.value, s);
  }

  /**
   * Promotion on shared tables, the reference policy reading the store's whole grants table. Where the session's team
   * has at most one accepted recipe for its goal class, the reference policy allows an executable call of the gateway if
   * and only if the search for the session returned a hit, the resource belongs to the session's team, and the
   * delegation names its user and agent.
   */
  lemma PromotionOnTablesIff(
    cfg: Config, w: World, ready: World, s: SessionRec, tool: string, resource: string, now: nat, p: Picture,
    binding: Option<BindingRec>, snapshotId: nat, commit: string, recipe: Option<RecipeRec>)
    requires DistinctRecipes(cfg.catalog.recipes) && RowsAreHits(cfg.catalog, w.similarity) && ready == Prepared(cfg, w, s)
    requires FindSession(cfg.catalog, s.session) == Some(s)
    requires Look(ready.graph, s.session, tool, resource, now, cfg.parse) == Ok(p)
    requires Answered(p, s.session, tool, resource, binding, snapshotId, commit, cfg.thresholds)
    requires forall a, b :: a in cfg.catalog.recipes && b in cfg.catalog.recipes && Suits(a, s) && Suits(b, s) ==> a == b
    requires MayPick(cfg.catalog, s, recipe)
    ensures DemoAllows(cfg.catalog, w.store.grants, s, tool, resource, recipe)
       <==> SessionHits(cfg.catalog, s) != [] && Delegated(cfg.catalog, s) && p.res.team == s.team
  {
    hide Prepared, Look, Answered, SessionHits, FindSession, RowsAreHits, DistinctRecipes, MatchedEarned, MayPick, Runs,
         DemoAllows, Delegated, StoredHit;
    ExecutableRecipeIff(cfg, w, ready, s, tool, resource, now, p, binding, snapshotId, commit);
    PreparedSaves(cfg, w, s);
    PreparedPicture(cfg, w, s, tool, resource, now, p);
    GatewayExecutesIff(p, s.session, tool, resource, binding, snapshotId, commit, cfg.thresholds);
    FoundRows(ready.graph, s.session, tool, resource, now, cfg.parse, p);
    if SessionHits(cfg.catalog, s) != [] {
      EarnedIsPicked(cfg.catalog, s, p, recipe);
      SameRecipeAllows(ready.graph, w.store.grants, s, tool, resource, now, cfg.parse, p, cfg.thresholds);
    } else {
      NothingSuits(cfg.catalog, s, recipe);
      NoRecipeDenies(cfg.catalog, w.store.grants, s, tool, resource);
    }
  }

  /** Without hits, no recipe suits the session. */
  lemma NothingSuits(c: Catalog, s: SessionRec, recipe: Option<RecipeRec>)
    requires SessionHits(c, s) == [] && MayPick(c, s, recipe)
    ensures recipe == None
  {
    if recipe.Some? {
      AcceptedIsHit(c.recipes, recipe.value, s.team, s.goalClass, s.goal);
    }
  }
}
