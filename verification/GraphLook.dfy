/**
 * What the in-memory graph finds for a question, row by row (platform/graph_fallback.py): when it finds anything at all,
 * which recipe it matches, and which recipes a search returns.
 */
module GraphLook {
  import opened Wrappers
  import opened Text
  import opened GrantLifecycle
  import opened GraphFallback
  import opened GatewayRecipes

  // ---- authorize ----

  /** The rows that a question picks out, each of them from its table. */
  ghost predicate PictureOf(data: GraphData, session: string, tool: string, resource: string, now: nat, p: Picture) {
    var c := data.catalog;
    && p.s in c.sessions && p.s.session == session && p.res in c.resources && p.res.resource == resource
    && p.ts in c.toolScopes && p.ts.tool == tool
    && (p.delegated <==> exists d :: d in c.delegations && d.session == session)
    && (p.grantPresent <==> exists g :: g in data.grants && g.session == session && g.scope == p.ts.scope && g.resource == resource
                                        && g.remaining > 0 && (g.expiresAt.Some? ==> now < g.expiresAt.value))
    && TrustOf(c, p) && RecipePart(data, session, tool, p)
  }

  /** The agent's score, if the agent is known. */
  ghost predicate TrustOf(c: Catalog, p: Picture) {
    if p.trust.Some? then exists a :: a in c.agents && a.agent == p.s.agent && a.trust == p.trust.value
    else forall a :: a in c.agents ==> a.agent != p.s.agent
  }

  /** What the tables say about the matched recipe. */
  ghost predicate RecipePart(data: GraphData, session: string, tool: string, p: Picture) {
    var c := data.catalog;
    if p.recipe.None? then !p.predicts && p.mode.None? && p.similarity.None?
    else
      var id := p.recipe.value.recipe;
      && (p.predicts <==> exists r :: r in c.recipeTools && r.recipe == id && r.tool == tool)
      && (if p.mode.Some? then p.mode.value in c.recipeScopes && p.mode.value.recipe == id && p.mode.value.scope == p.ts.scope
          else forall r :: r in c.recipeScopes ==> r.recipe != id || r.scope != p.ts.scope)
      && (if p.similarity.Some? then p.similarity.value in data.similarity && p.similarity.value.session == session && p.similarity.value.recipe == id
          else forall r :: r in data.similarity ==> r.session != session || r.recipe != id)
  }

  lemma RecipePartFound(data: GraphData, session: string, tool: string, resource: string, now: nat, parse: Parsers, p: Picture)
    requires Look(data, session, tool, resource, now, parse) == Ok(p)
    ensures RecipePart(data, session, tool, p)
  {
    hide MatchedRecipe, GrantPresent;
    if p.recipe.Some? {
      var id := p.recipe.value.recipe;
      if r :| r in data.catalog.recipeTools && r.recipe == id && r.tool == tool {
        assert r == RecipeToolRec(id, tool);
      }
    }
  }

  lemma RowsFound(data: GraphData, session: string, tool: string, resource: string, now: nat, parse: Parsers, p: Picture)
    requires Look(data, session, tool, resource, now, parse) == Ok(p)
    ensures p.s in data.catalog.sessions && p.s.session == session && p.res in data.catalog.resources && p.res.resource == resource
    ensures p.ts in data.catalog.toolScopes && p.ts.tool == tool
    ensures p.delegated <==> exists d :: d in data.catalog.delegations && d.session == session
    ensures TrustOf(data.catalog, p)
    ensures p.grantPresent == GrantPresent(data.grants, session, p.ts.scope, resource, now, parse)
    ensures p.recipe == MatchedRecipe(data, p.s)
  {
    hide MatchedRecipe, GrantPresent;
  }

  /** A question is answered with rows exactly when its session, its resource and its tool are known. */
  lemma LookFinds(data: GraphData, session: string, tool: string, resource: string, now: nat, parse: Parsers)
    ensures Look(data, session, tool, resource, now, parse).Ok? <==>
      && (exists s :: s in data.catalog.sessions && s.session == session)
      && (exists r :: r in data.catalog.resources && r.resource == resource)
      && (exists t :: t in data.catalog.toolScopes && t.tool == tool)
    ensures Look(data, session, tool, resource, now, parse).Ok? ==>
      PictureOf(data, session, tool, resource, now, Look(data, session, tool, resource, now, parse).value)
  {
    hide RecipePart, TrustOf, Look;
    KnownRows(data, session, tool, resource, now, parse);
    var look := Look(data, session, tool, resource, now, parse);
    if look.Ok? {
      RowsFound(data, session, tool, resource, now, parse, look.value);
      RecipePartFound(data, session, tool, resource, now, parse, look.value);
    }
  }

  lemma KnownRows(data: GraphData, session: string, tool: string, resource: string, now: nat, parse: Parsers)
    ensures Look(data, session, tool, resource, now, parse).Ok? <==>
      && (exists s :: s in data.catalog.sessions && s.session == session)
      && (exists r :: r in data.catalog.resources && r.resource == resource)
      && (exists t :: t in data.catalog.toolScopes && t.tool == tool)
  {
    hide MatchedRecipe, GrantPresent, SimilarityOf, ScopeMode;
  }

  // ---- The matched recipe ----

  /** A reified row of the session that no other outdoes: by a smaller rank, or by a higher score at the same rank. */
  ghost predicate BestRow(rows: seq<SimilarityRec>, session: string, x: SimilarityRec) {
    && x in rows && x.session == session && x.reified
    && forall y :: y in rows && y.session == session && y.reified ==> x.rank < y.rank || (x.rank == y.rank && x.score >= y.score)
  }

  /** The first recipe of the team for the goal class, of any status. */
  predicate FirstOfTeam(c: Catalog, s: SessionRec, n: nat) {
    && n < |c.recipes| && c.recipes[n].team == s.team && c.recipes[n].goalClass == s.goalClass
    && forall m :: 0 <= m < n ==> c.recipes[m].team != s.team || c.recipes[m].goalClass != s.goalClass
  }

  ghost predicate MatchesFirst(c: Catalog, s: SessionRec, r: Option<RecipeRec>) {
    if r.Some? then exists n: nat :: FirstOfTeam(c, s, n) && r.value == c.recipes[n]
    else forall x :: x in c.recipes ==> x.team != s.team || x.goalClass != s.goalClass
  }

  lemma {:induction false} FirstWhereAt<T>(rows: seq<T>, p: T -> bool) returns (n: nat)
    requires FirstWhere(rows, p).Some?
    ensures n < |rows| && rows[n] == FirstWhere(rows, p).value && p(rows[n]) && forall m :: 0 <= m < n ==> !p(rows[m])
  {
    if p(rows[0]) {
      n := 0;
    } else {
      n := FirstWhereAt(rows[1..], p);
      assert forall m :: 1 <= m < n + 1 ==> rows[m] == rows[1..][m - 1];
      n := n + 1;
    }
  }

  lemma FallbackIsFirst(c: Catalog, s: SessionRec)
    ensures MatchesFirst(c, s, FallbackRecipe(c, s))
  {
    var p := (x: RecipeRec) => x.goalClass == s.goalClass && x.team == s.team;
    if FallbackRecipe(c, s).Some? {
      assert FallbackRecipe(c, s) == FirstWhere(c.recipes, p);
      var n := FirstWhereAt(c.recipes, p);
      assert FirstOfTeam(c, s, n);
    }
  }

  /**
   * The recipe of a best reified row of the session if there is one and its recipe is known; otherwise the first recipe
   * of the team for the goal class.
   */
  lemma RecipeMatched(data: GraphData, s: SessionRec)
    ensures var r := MatchedRecipe(data, s);
      || (r.Some? && r.value in data.catalog.recipes
          && exists x :: BestRow(data.similarity, s.session, x) && x.recipe == r.value.recipe)
      || (MatchesFirst(data.catalog, s, r)
          && ((forall x :: x in data.similarity ==> x.session != s.session || !x.reified)
              || exists x :: BestRow(data.similarity, s.session, x) && forall y :: y in data.catalog.recipes ==> y.recipe != x.recipe))
  {
    hide MatchesFirst, FallbackRecipe;
    FallbackIsFirst(data.catalog, s);
    var hits := ReifiedRows(data.similarity, s.session);
    if hits != [] {
      assert BestRow(data.similarity, s.session, Best(hits));
    }
  }

  // ---- search_recipes ----

  /** The goal names the text, in any case of letters. */
  predicate Names(goal: string, text: string) {
    Contains(Lower(goal), Lower(text))
  }

  /** Six tenths for the class, and two for each name that the goal mentions; in thousandths. */
  lemma HitScores(x: RecipeRec, goalClass: string, goal: string)
    ensures HitScore(x, goalClass, goal) % 200 == 0 && 0 <= HitScore(x, goalClass, goal) <= 1000
    ensures HitScore(x, goalClass, goal) >= 600 <==> x.goalClass == goalClass
    ensures HitScore(x, goalClass, goal) % 600 == 0 <==> !Names(goal, x.goalClass) && !Names(goal, x.title)
    ensures HitScore(x, goalClass, goal) % 600 == 400 <==> Names(goal, x.goalClass) && Names(goal, x.title)
  {
    hide Contains;
  }

  /** A recipe of the goal's class outranks every recipe of another class. */
  lemma ClassOutranksNames(x: RecipeRec, y: RecipeRec, goalClass: string, goal: string)
    requires x.goalClass == goalClass && y.goalClass != goalClass
    ensures HitScore(x, goalClass, goal) > HitScore(y, goalClass, goal)
  {
    HitScores(x, goalClass, goal);
    HitScores(y, goalClass, goal);
    hide HitScore;
  }

  /** A recipe that the search may return. */
  predicate Found(x: RecipeRec, team: string, goalClass: string, goal: string) {
    x.team == team && x.status == "accepted" && (x.goalClass == goalClass || Names(goal, x.goalClass) || Names(goal, x.title))
  }

  /** The hit that the recipe counts as. */
  predicate CountsAs(x: RecipeRec, team: string, goalClass: string, goal: string, h: Hit) {
    Found(x, team, goalClass, goal) && h == Hit(x.recipe, HitScore(x, goalClass, goal))
  }

  /** One more recipe adds at most its own hit. */
  lemma OneMoreHit(recipes: seq<RecipeRec>, team: string, goalClass: string, goal: string, h: Hit)
    requires recipes != []
    ensures var n := |recipes| - 1;
      h in RankedHits(recipes, team, goalClass, goal)
      <==> h in RankedHits(recipes[..n], team, goalClass, goal) || CountsAs(recipes[n], team, goalClass, goal, h)
  {
    hide HitScore;
    PositiveIff(recipes[|recipes| - 1], goalClass, goal);
    hide Names;
  }

  /** Some recipe counts as the hit. */
  ghost predicate SomeCounts(recipes: seq<RecipeRec>, team: string, goalClass: string, goal: string, h: Hit) {
    exists x :: x in recipes && CountsAs(x, team, goalClass, goal, h)
  }

  lemma SomeCountsSplit(recipes: seq<RecipeRec>, team: string, goalClass: string, goal: string, h: Hit)
    requires recipes != []
    ensures var n := |recipes| - 1;
      SomeCounts(recipes, team, goalClass, goal, h)
      <==> SomeCounts(recipes[..n], team, goalClass, goal, h) || CountsAs(recipes[n], team, goalClass, goal, h)
  {
    hide CountsAs;
    var n := |recipes| - 1;
    assert recipes == recipes[..n] + [recipes[n]];
  }

  /** The ranked hits are exactly the accepted recipes of the team that have anything to do with the goal. */
  lemma {:induction false} HitsExactly(recipes: seq<RecipeRec>, team: string, goalClass: string, goal: string, h: Hit)
    ensures h in RankedHits(recipes, team, goalClass, goal) <==> SomeCounts(recipes, team, goalClass, goal, h)
  {
    if recipes != [] {
      var n := |recipes| - 1;
      HitsExactly(recipes[..n], team, goalClass, goal, h);
      OneMoreHit(recipes, team, goalClass, goal, h);
      SomeCountsSplit(recipes, team, goalClass, goal, h);
      hide RankedHits, SomeCounts, CountsAs;
    }
  }

  lemma PositiveIff(x: RecipeRec, goalClass: string, goal: string)
    ensures HitScore(x, goalClass, goal) > 0 <==> x.goalClass == goalClass || Names(goal, x.goalClass) || Names(goal, x.title)
  {
    hide Contains;
  }

  /** The session's three best hits, best first. */
  lemma SessionHitsAreBest(c: Catalog, s: SessionRec)
    ensures var all := RankedHits(c.recipes, s.team, s.goalClass, s.goal);
      SessionHits(c, s) == if |all| <= 3 then all else all[..3]
    ensures BestFirst(SessionHits(c, s))
  {
    RankedHitsAreOrdered(c.recipes, s.team, s.goalClass, s.goal);
  }

  /** After the search, the hit at each place is stored for the session with its score, its rank and as reified. */
  lemma StoredWithRank(rows: seq<SimilarityRec>, session: string, hits: seq<Hit>, k: nat)
    requires DistinctHits(hits) && k < |hits|
    ensures FirstMatch(SaveHits(rows, session, hits), session, hits[k].recipe)
         == Some(SimilarityRec(session, hits[k].recipe, hits[k].score, k + 1, true))
  {
    SavedHitsAreFound(rows, session, hits, k);
  }
  // ---- Ties ----

  /** The hits with one score, in their order. */
  function OfScore(hits: seq<Hit>, score: int): seq<Hit> {
    if hits == [] then []
    else
      var n := |hits| - 1;
      OfScore(hits[..n], score) + if hits[n].score == score then [hits[n]] else []
  }

  /** The hits in the order of the table. */
  function TableHits(recipes: seq<RecipeRec>, team: string, goalClass: string, goal: string): seq<Hit> {
    if recipes == [] then []
    else
      var n := |recipes| - 1;
      var x := recipes[n];
      TableHits(recipes[..n], team, goalClass, goal) + if Found(x, team, goalClass, goal) then [HitOf(x, goalClass, goal)] else []
  }

  lemma OneMoreOfScore(hits: seq<Hit>, h: Hit, score: int)
    ensures OfScore(hits + [h], score) == OfScore(hits, score) + if h.score == score then [h] else []
  {
    assert (hits + [h])[..|hits|] == hits;
  }

  lemma {:induction false} InsertedLastOfItsScore(hits: seq<Hit>, h: Hit, score: int)
    ensures OfScore(InsertHit(hits, h), score) == OfScore(hits, score) + if h.score == score then [h] else []
  {
    if hits == [] || hits[|hits| - 1].score >= h.score {
      assert InsertHit(hits, h) == hits + [h];
      OneMoreOfScore(hits, h, score);
    } else {
      var n := |hits| - 1;
      var front := InsertHit(hits[..n], h);
      assert InsertHit(hits, h) == front + [hits[n]];
      hide InsertHit;
      InsertedLastOfItsScore(hits[..n], h, score);
      OneMoreOfScore(front, hits[n], score);
    }
  }

  function HitOf(x: RecipeRec, goalClass: string, goal: string): Hit {
    Hit(x.recipe, HitScore(x, goalClass, goal))
  }

  lemma OneMoreRecipe(recipes: seq<RecipeRec>, team: string, goalClass: string, goal: string)
    requires recipes != []
    ensures var n := |recipes| - 1;
      RankedHits(recipes, team, goalClass, goal)
      == if Found(recipes[n], team, goalClass, goal)
         then InsertHit(RankedHits(recipes[..n], team, goalClass, goal), HitOf(recipes[n], goalClass, goal))
         else RankedHits(recipes[..n], team, goalClass, goal)
  {
    hide HitScore, InsertHit;
    PositiveIff(recipes[|recipes| - 1], goalClass, goal);
    hide Names;
  }

  /** Hits with the same score come in the order of the table. */
  lemma {:induction false} TiesInTableOrder(recipes: seq<RecipeRec>, team: string, goalClass: string, goal: string, score: int)
    ensures OfScore(RankedHits(recipes, team, goalClass, goal), score) == OfScore(TableHits(recipes, team, goalClass, goal), score)
  {
    if recipes != [] {
      hide RankedHits, Found, HitOf, InsertHit, BestFirst;
      var n := |recipes| - 1;
      TiesInTableOrder(recipes[..n], team, goalClass, goal, score);
      OneMoreRecipe(recipes, team, goalClass, goal);
      if Found(recipes[n], team, goalClass, goal) {
        var h := HitOf(recipes[n], goalClass, goal);
        InsertedLastOfItsScore(RankedHits(recipes[..n], team, goalClass, goal), h, score);
        OneMoreOfScore(TableHits(recipes[..n], team, goalClass, goal), h, score);
      } else {
        assert TableHits(recipes, team, goalClass, goal) == TableHits(recipes[..n], team, goalClass, goal);
      }
    }
  }

  predicate Outdoes(x: SimilarityRec, y: SimilarityRec) {
    x.rank < y.rank || (x.rank == y.rank && x.score > y.score)
  }

  /** The reified row of the session at this place is outdone by none, and outdoes all that come before it. */
  predicate FirstBest(rows: seq<SimilarityRec>, session: string, n: nat) {
    && n < |rows| && rows[n].session == session && rows[n].reified
    && (forall m :: 0 <= m < n && rows[m].session == session && rows[m].reified ==> Outdoes(rows[n], rows[m]))
    && (forall m :: n < m < |rows| && rows[m].session == session && rows[m].reified ==> !Outdoes(rows[m], rows[n]))
  }

  lemma BestOfMore(x: SimilarityRec, rest: seq<SimilarityRec>)
    requires rest != []
    ensures Best([x] + rest) == if Outdoes(Best(rest), x) then Best(rest) else x
  {
    assert ([x] + rest)[1..] == rest;
  }

  predicate Counts(x: SimilarityRec, session: string) {
    x.session == session && x.reified
  }

  lemma FirstBestGrows(rows: seq<SimilarityRec>, session: string, k: nat) returns (n: nat)
    requires rows != [] && FirstBest(rows[1..], session, k)
    ensures n == if Counts(rows[0], session) && !Outdoes(rows[k + 1], rows[0]) then 0 else k + 1
    ensures FirstBest(rows, session, n)
  {
    n := if Counts(rows[0], session) && !Outdoes(rows[k + 1], rows[0]) then 0 else k + 1;
    assert forall m :: 0 < m < |rows| ==> rows[m] == rows[1..][m - 1];
  }

  lemma NoneCounts(rows: seq<SimilarityRec>, session: string)
    requires rows != [] && Counts(rows[0], session) && forall x :: x in rows[1..] ==> !Counts(x, session)
    ensures FirstBest(rows, session, 0)
  {
    forall m | 0 < m < |rows| ensures !Counts(rows[m], session) {
      assert rows[m] == rows[1..][m - 1];
    }
  }

  lemma {:induction false} BestIsFirst(rows: seq<SimilarityRec>, session: string, p: SimilarityRec -> bool) returns (n: nat)
    requires Selected(rows, p) != [] && forall x :: p(x) <==> Counts(x, session)
    ensures FirstBest(rows, session, n) && rows[n] == Best(Selected(rows, p))
  {
    var rest := Selected(rows[1..], p);
    assert Selected(rows, p) == (if p(rows[0]) then [rows[0]] else []) + rest;
    if rest == [] {
      n := 0;
      NoneCounts(rows, session);
    } else {
      var k := BestIsFirst(rows[1..], session, p);
      BestOfMore(rows[0], rest);
      hide Best, Selected, FirstBest, Outdoes;
      assert [] + rest == rest;
      n := FirstBestGrows(rows, session, k);
    }
  }

  /** Among the best reified rows of a session, the one that was stored first names the recipe. */
  lemma FirstBestIsMatched(data: GraphData, s: SessionRec)
    requires exists x :: x in data.similarity && x.session == s.session && x.reified
    ensures exists n: nat :: FirstBest(data.similarity, s.session, n)
              && MatchedRecipe(data, s) == if RecipeById(data.catalog, data.similarity[n].recipe).Some?
                                           then RecipeById(data.catalog, data.similarity[n].recipe) else FallbackRecipe(data.catalog, s)
  {
    hide FallbackRecipe, RecipeById, Best, FirstBest, Selected;
    var p := (x: SimilarityRec) => x.session == s.session && x.reified;
    assert forall x :: p(x) <==> Counts(x, s.session);
    var n := BestIsFirst(data.similarity, s.session, p);
  }
}
