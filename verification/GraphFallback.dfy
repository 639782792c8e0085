/** The in-memory graph (platform/graph_fallback.py): a cached copy of the tables, and the facts read from it. */
module GraphFallback {
  import opened Wrappers
  import opened Text
  import opened Json
  import opened PolicyCompile
  import opened GrantLifecycle

  datatype SessionRec = SessionRec(session: string, user: string, team: string, agent: string, goal: string, goalClass: string)
  datatype AgentRec = AgentRec(agent: string, trust: int)
  datatype DelegationRec = DelegationRec(session: string, user: string, agent: string)
  datatype RecipeRec = RecipeRec(recipe: string, title: string, team: string, goalClass: string, status: string)
  datatype RecipeToolRec = RecipeToolRec(recipe: string, tool: string)
  datatype RecipeScopeRec = RecipeScopeRec(recipe: string, scope: string, approvalMode: string)
  datatype ResourceRec = ResourceRec(resource: string, team: string, sensitivity: string, external: bool)
  datatype ToolScopeRec = ToolScopeRec(tool: string, scope: string, accessKind: string)
  datatype SimilarityRec = SimilarityRec(session: string, recipe: string, score: int, rank: int, reified: bool)

  /** The tables that do not change while the gateway runs. */
  datatype Catalog = Catalog(
    sessions: seq<SessionRec>, agents: seq<AgentRec>, delegations: seq<DelegationRec>, recipes: seq<RecipeRec>,
    recipeTools: seq<RecipeToolRec>, recipeScopes: seq<RecipeScopeRec>, resources: seq<ResourceRec>,
    toolScopes: seq<ToolScopeRec>)

  /** `InMemoryGraph.data` */
  datatype GraphData = GraphData(catalog: Catalog, grants: seq<Grant>, similarity: seq<SimilarityRec>)

  // ---- Searching rows ----

  function FirstWhere<T>(rows: seq<T>, p: T -> bool): (r: Option<T>)
    ensures r.Some? ==> r.value in rows && p(r.value)
    ensures r.None? ==> forall x :: x in rows ==> !p(x)
  {
    if rows == [] then None else if p(rows[0]) then Some(rows[0]) else FirstWhere(rows[1..], p)
  }

  /** A Python dictionary built from rows keeps the last row of each key. */
  function LastWhere<T>(rows: seq<T>, p: T -> bool): (r: Option<T>)
    ensures r.Some? ==> r.value in rows && p(r.value)
    ensures r.None? ==> forall x :: x in rows ==> !p(x)
  {
    if rows == [] then None
    else if p(rows[|rows| - 1]) then Some(rows[|rows| - 1])
    else LastWhere(rows[..|rows| - 1], p)
  }

  function FindSession(c: Catalog, session: string): (r: Option<SessionRec>)
    ensures r.Some? ==> r.value in c.sessions && r.value.session == session
  {
    LastWhere(c.sessions, (x: SessionRec) => x.session == session)
  }

  function FindDelegation(c: Catalog, session: string): (r: Option<DelegationRec>)
    ensures r.Some? ==> r.value in c.delegations && r.value.session == session
  {
    LastWhere(c.delegations, (x: DelegationRec) => x.session == session)
  }

  function FindAgent(c: Catalog, agent: string): Option<AgentRec> {
    LastWhere(c.agents, (x: AgentRec) => x.agent == agent)
  }

  function FindResource(c: Catalog, resource: string): (r: Option<ResourceRec>)
    ensures r.Some? ==> r.value in c.resources && r.value.resource == resource
  {
    LastWhere(c.resources, (x: ResourceRec) => x.resource == resource)
  }

  function FindToolScope(c: Catalog, tool: string): (r: Option<ToolScopeRec>)
    ensures r.Some? ==> r.value in c.toolScopes && r.value.tool == tool
  {
    LastWhere(c.toolScopes, (x: ToolScopeRec) => x.tool == tool)
  }

  // ---- Matching a recipe ----

  /** `sorted(rows, key=(rank, -score))[0]`: the sort is stable, so the earliest of the best rows. */
  function Best(rows: seq<SimilarityRec>): (r: SimilarityRec)
    requires rows != []
    ensures r in rows
    ensures forall x :: x in rows ==> r.rank < x.rank || (r.rank == x.rank && r.score >= x.score)
  {
    if |rows| == 1 then rows[0]
    else
      var rest := Best(rows[1..]);
      assert forall x :: x in rows <==> x == rows[0] || x in rows[1..];
      if rest.rank < rows[0].rank || (rest.rank == rows[0].rank && rest.score > rows[0].score) then rest else rows[0]
  }

  function Selected<T(!new)>(rows: seq<T>, p: T -> bool): (r: seq<T>)
    ensures forall x :: x in r <==> x in rows && p(x)
  {
    if rows == [] then []
    else
      assert forall x :: x in rows <==> x == rows[0] || x in rows[1..];
      (if p(rows[0]) then [rows[0]] else []) + Selected(rows[1..], p)
  }

  /** The rows about a session that count as reified. */
  function ReifiedRows(rows: seq<SimilarityRec>, session: string): (r: seq<SimilarityRec>)
    ensures forall x :: x in r <==> x in rows && x.session == session && x.reified
  {
    Selected(rows, (x: SimilarityRec) => x.session == session && x.reified)
  }

  /** The first recipe for the goal class of the session's team, whatever its status. */
  function FallbackRecipe(c: Catalog, s: SessionRec): (r: Option<RecipeRec>)
    ensures r.Some? ==> r.value in c.recipes && r.value.goalClass == s.goalClass && r.value.team == s.team
  {
    FirstWhere(c.recipes, (x: RecipeRec) => x.goalClass == s.goalClass && x.team == s.team)
  }

  function RecipeById(c: Catalog, recipe: string): (r: Option<RecipeRec>)
    ensures r.Some? ==> r.value in c.recipes && r.value.recipe == recipe
    ensures r.None? ==> forall x :: x in c.recipes ==> x.recipe != recipe
  {
    LastWhere(c.recipes, (x: RecipeRec) => x.recipe == recipe)
  }

  /** The matched recipe of `preflight`: that of the best reified row, or the fallback. */
  function MatchedRecipe(data: GraphData, s: SessionRec): (r: Option<RecipeRec>)
    ensures r.Some? ==> r.value in data.catalog.recipes
  {
    var hits := ReifiedRows(data.similarity, s.session);
    var byHit := if hits == [] then None else RecipeById(data.catalog, Best(hits).recipe);
    if byHit.Some? then byHit else FallbackRecipe(data.catalog, s)
  }

  // ---- authorize ----

  /** The last approval mode of the recipe for the scope, as the loop over `recipe_scopes` leaves it. */
  function ScopeMode(c: Catalog, recipe: Option<RecipeRec>, scope: string): Option<RecipeScopeRec> {
    if recipe.None? then None
    else LastWhere(c.recipeScopes, (x: RecipeScopeRec) => x.recipe == recipe.value.recipe && x.scope == scope)
  }

  predicate Predicts(c: Catalog, recipe: Option<RecipeRec>, tool: string) {
    recipe.Some? && RecipeToolRec(recipe.value.recipe, tool) in c.recipeTools
  }

  /** `grant_present` of the cached copy. */
  predicate GrantPresent(grants: seq<Grant>, session: string, scope: string, resource: string, now: nat, parse: Parsers) {
    exists g :: g in grants && g.session == session && g.scope == scope && g.resource == resource
                && GrantRowIsActive(Raw(g), now, parse)
  }

  function SimilarityOf(data: GraphData, session: string, recipe: Option<RecipeRec>): Option<SimilarityRec> {
    if recipe.None? then None
    else FirstWhere(data.similarity, (x: SimilarityRec) => x.session == session && x.recipe == recipe.value.recipe)
  }

  /** The rows that one authorization question picks out of the graph. */
  datatype Picture = Picture(
    s: SessionRec, res: ResourceRec, ts: ToolScopeRec, recipe: Option<RecipeRec>, delegated: bool, predicts: bool,
    mode: Option<RecipeScopeRec>, grantPresent: bool, trust: Option<int>, similarity: Option<SimilarityRec>)

  /** `InMemoryGraph.authorize` up to its facts; an error is the `{"error": ...}` result. */
  function Look(data: GraphData, session: string, tool: string, resource: string, now: nat, parse: Parsers): Result<Picture> {
    var c := data.catalog;
    var s := FindSession(c, session);
    if s.None? then Err("session not found")
    else
      var res := FindResource(c, resource);
      var ts := FindToolScope(c, tool);
      if res.None? then Err("resource not found")
      else if ts.None? then Err("tool not found")
      else
        var recipe := MatchedRecipe(data, s.value);
        var agent := FindAgent(c, s.value.agent);
        Ok(Picture(
          s.value, res.value, ts.value, recipe,
          FindDelegation(c, session).Some?,
          Predicts(c, recipe, tool),
          ScopeMode(c, recipe, ts.value.scope),
          GrantPresent(data.grants, session, ts.value.scope, resource, now, parse),
          if agent.Some? then Some(agent.value.trust) else None,
          SimilarityOf(data, session, recipe)))
  }

  function NonEmpty(texts: seq<string>): seq<string> {
    if texts == [] then [] else (if texts[0] != "" then [texts[0]] else []) + NonEmpty(texts[1..])
  }

  /** The entries of the `facts` dictionary that depend on neither the session's team nor the grants. */
  function OtherFacts(p: Picture, session: string, tool: string, resource: string): Facts {
    map[
      "session_id" := Str(session),
      "tool_id" := Str(tool),
      "resource_id" := Str(resource),
      "scope" := Str(p.ts.scope),
      "user_id" := Str(p.s.user),
      "agent_id" := Str(p.s.agent),
      "resource_team" := Str(p.res.team),
      "goal_class" := Str(p.s.goalClass),
      "delegation_present" := Bool(p.delegated),
      "recipe_predicts_tool" := Bool(p.predicts),
      "resource_external" := Bool(p.res.external),
      "resource_sensitivity" := Str(p.res.sensitivity),
      "access_kind" := Str(p.ts.accessKind),
      "scope_approval_mode" := if p.mode.Some? then Str(p.mode.value.approvalMode) else Null,
      "agent_trust_score" := if p.trust.Some? then Num(p.trust.value) else Null,
      "similarity_score" := Num(if p.similarity.Some? then p.similarity.value.score else if p.recipe.Some? then 1000 else 0),
      "similarity_reified" := Bool(if p.similarity.Some? then p.similarity.value.reified else true)
    ]
  }

  /** The `facts` dictionary of `authorize`. */
  function FactsOf(p: Picture, session: string, tool: string, resource: string): Facts {
    OtherFacts(p, session, tool, resource)[
      "session_team" := Str(p.s.team)][
      "same_team" := Bool(p.res.team == p.s.team)][
      "grant_present" := Bool(p.grantPresent)]
  }

  /** `[x for x in context_path if x]` */
  function PathOf(p: Picture, session: string, tool: string, resource: string): seq<string> {
    NonEmpty([session, if p.recipe.Some? then p.recipe.value.recipe else "", tool, p.ts.scope, resource, p.res.team, p.s.user, p.s.agent])
  }

  /** The context that `authorize` returns. */
  function ContextOf(p: Picture, session: string, tool: string, resource: string): Context {
    Context(session, tool, resource, "", "", "", "", "", "", "", "", PathOf(p, session, tool, resource), "", "", "",
            FactsOf(p, session, tool, resource))
  }

  // ---- search_recipes ----

  datatype Hit = Hit(recipe: string, score: int)

  function HitScore(r: RecipeRec, goalClass: string, goal: string): int {
    (if r.goalClass == goalClass then 600 else 0)
    + (if Contains(Lower(goal), Lower(r.goalClass)) then 200 else 0)
    + (if Contains(Lower(goal), Lower(r.title)) then 200 else 0)
  }

  /** Insertion after every hit with at least the same score: what a stable descending sort does with one more row. */
  function InsertHit(hits: seq<Hit>, h: Hit): (r: seq<Hit>)
    ensures |r| == |hits| + 1
    ensures forall x :: x in r <==> x == h || x in hits
  {
    if hits == [] then [h]
    else if hits[|hits| - 1].score >= h.score then hits + [h]
    else
      var n := |hits| - 1;
      assert hits == hits[..n] + [hits[n]];
      InsertHit(hits[..n], h) + [hits[n]]
  }

  predicate IsHit(h: Hit, x: RecipeRec, team: string, goalClass: string, goal: string) {
    x.recipe == h.recipe && x.team == team && x.status == "accepted" && h.score == HitScore(x, goalClass, goal)
  }

  /** All hits of the accepted recipes of the team, best first; ties in table order. */
  function RankedHits(recipes: seq<RecipeRec>, team: string, goalClass: string, goal: string): (r: seq<Hit>)
    ensures forall h :: h in r ==> h.score > 0 && exists x :: x in recipes && IsHit(h, x, team, goalClass, goal)
  {
    if recipes == [] then []
    else
      var n := |recipes| - 1;
      var before := RankedHits(recipes[..n], team, goalClass, goal);
      var x := recipes[n];
      assert forall y :: y in recipes[..n] ==> y in recipes;
      assert x in recipes;
      if x.team != team || x.status != "accepted" || HitScore(x, goalClass, goal) <= 0 then before
      else InsertHit(before, Hit(x.recipe, HitScore(x, goalClass, goal)))
  }

  predicate BestFirst(hits: seq<Hit>) {
    forall i, j :: 0 <= i < j < |hits| ==> hits[i].score >= hits[j].score
  }

  lemma {:induction false} InsertHitKeepsOrder(hits: seq<Hit>, h: Hit)
    requires BestFirst(hits)
    ensures BestFirst(InsertHit(hits, h))
  {
    if hits != [] && hits[|hits| - 1].score < h.score {
      var n := |hits| - 1;
      var front := InsertHit(hits[..n], h);
      InsertHitKeepsOrder(hits[..n], h);
      forall i | 0 <= i < |front| ensures front[i].score >= hits[n].score {
        assert front[i] in front;
      }
    }
  }

  /** Retrieval returns the hits best first. */
  lemma {:induction false} RankedHitsAreOrdered(recipes: seq<RecipeRec>, team: string, goalClass: string, goal: string)
    ensures BestFirst(RankedHits(recipes, team, goalClass, goal))
  {
    if recipes != [] {
      var n := |recipes| - 1;
      RankedHitsAreOrdered(recipes[..n], team, goalClass, goal);
      InsertHitKeepsOrder(RankedHits(recipes[..n], team, goalClass, goal), Hit(recipes[n].recipe, HitScore(recipes[n], goalClass, goal)));
    }
  }

  function TopHits(hits: seq<Hit>, limit: nat): seq<Hit> {
    if |hits| <= limit then hits else hits[..limit]
  }

  /** `search_recipes`: accumulate and keep sorted, then cut. */
  method SearchRecipes(recipes: seq<RecipeRec>, team: string, goalClass: string, goal: string, limit: nat) returns (hits: seq<Hit>)
    ensures hits == TopHits(RankedHits(recipes, team, goalClass, goal), limit)
  {
    hits := [];
    for i := 0 to |recipes|
      invariant hits == RankedHits(recipes[..i], team, goalClass, goal)
    {
      assert recipes[..i + 1][..i] == recipes[..i];
      var r := recipes[i];
      if r.team == team && r.status == "accepted" {
        var score := 0;
        if r.goalClass == goalClass {
          score := score + 600;
        }
        if Contains(Lower(goal), Lower(r.goalClass)) {
          score := score + 200;
        }
        if Contains(Lower(goal), Lower(r.title)) {
          score := score + 200;
        }
        if score > 0 {
          hits := InsertHit(hits, Hit(r.recipe, score));
        }
      }
    }
    assert recipes[..|recipes|] == recipes;
    if |hits| > limit {
      hits := hits[..limit];
    }
  }

  /** The hits of a session, as the gateway asks for them. */
  function SessionHits(c: Catalog, s: SessionRec): (r: seq<Hit>)
    ensures forall h :: h in r ==> h.score > 0 && exists x :: x in c.recipes && IsHit(h, x, s.team, s.goalClass, s.goal)
  {
    TopHits(RankedHits(c.recipes, s.team, s.goalClass, s.goal), 3)
  }

  // ---- save_recipe_hits ----

  /** One `INSERT ... ON DUPLICATE KEY UPDATE` on (session, recipe). */
  function Upsert(rows: seq<SimilarityRec>, x: SimilarityRec): seq<SimilarityRec> {
    if rows == [] then [x]
    else if rows[0].session == x.session && rows[0].recipe == x.recipe then [x] + rows[1..]
    else [rows[0]] + Upsert(rows[1..], x)
  }

  /** The hits of a session, ranked from one; a fresh hit counts as reified. */
  function SaveHits(rows: seq<SimilarityRec>, session: string, hits: seq<Hit>): seq<SimilarityRec> {
    if hits == [] then rows
    else
      var n := |hits| - 1;
      Upsert(SaveHits(rows, session, hits[..n]), SimilarityRec(session, hits[n].recipe, hits[n].score, n + 1, true))
  }
}
