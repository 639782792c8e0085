/**
 * Which recipe the gateway matches (platform/graph_fallback.py, platform/gateway_service.py): every authorization saves
 * the session's hits before it looks at the graph.
 */
module GatewayRecipes {
  import opened Wrappers
  import opened Text
  import opened PolicyRows
  import opened GrantLifecycle
  import opened GraphFallback
  import opened GatewayContext
  import opened GatewayExecutes
  import opened GatewayJustification
  import opened Ledger
  import opened Gateway

  // ---- Saving hits ----

  /** The first row of the session for the recipe. */
  function FirstMatch(rows: seq<SimilarityRec>, session: string, recipe: string): Option<SimilarityRec> {
    if rows == [] then None
    else if rows[0].session == session && rows[0].recipe == recipe then Some(rows[0])
    else FirstMatch(rows[1..], session, recipe)
  }

  lemma {:induction false} UpsertMatches(rows: seq<SimilarityRec>, x: SimilarityRec, session: string, recipe: string)
    ensures FirstMatch(Upsert(rows, x), session, recipe)
         == if x.session == session && x.recipe == recipe then Some(x) else FirstMatch(rows, session, recipe)
  {
    if rows == [] {
    } else if rows[0].session == x.session && rows[0].recipe == x.recipe {
      assert ([x] + rows[1..])[1..] == rows[1..];
    } else {
      UpsertMatches(rows[1..], x, session, recipe);
      assert ([rows[0]] + Upsert(rows[1..], x))[1..] == Upsert(rows[1..], x);
    }
  }

  lemma {:induction false} UpsertIdle(rows: seq<SimilarityRec>, x: SimilarityRec)
    requires FirstMatch(rows, x.session, x.recipe) == Some(x)
    ensures Upsert(rows, x) == rows
  {
    if rows[0].session != x.session || rows[0].recipe != x.recipe {
      UpsertIdle(rows[1..], x);
    }
  }

  function HitRow(session: string, hits: seq<Hit>, k: nat): SimilarityRec
    requires k < |hits|
  {
    SimilarityRec(session, hits[k].recipe, hits[k].score, k + 1, true)
  }

  predicate DistinctHits(hits: seq<Hit>) {
    forall i, j :: 0 <= i < j < |hits| ==> hits[i].recipe != hits[j].recipe
  }

  lemma {:induction false} SavedHitsAreFound(rows: seq<SimilarityRec>, session: string, hits: seq<Hit>, k: nat)
    requires DistinctHits(hits) && k < |hits|
    ensures FirstMatch(SaveHits(rows, session, hits), session, hits[k].recipe) == Some(HitRow(session, hits, k))
  {
    var n := |hits| - 1;
    UpsertMatches(SaveHits(rows, session, hits[..n]), HitRow(session, hits, n), session, hits[k].recipe);
    if k < n {
      SavedHitsAreFound(rows, session, hits[..n], k);
    }
  }

  lemma {:induction false} SavingFoundHits(rows: seq<SimilarityRec>, session: string, hits: seq<Hit>, n: nat)
    requires n <= |hits| && forall k :: 0 <= k < n ==> FirstMatch(rows, session, hits[k].recipe) == Some(HitRow(session, hits, k))
    ensures SaveHits(rows, session, hits[..n]) == rows
  {
    if n > 0 {
      assert hits[..n][..n - 1] == hits[..n - 1];
      SavingFoundHits(rows, session, hits, n - 1);
      UpsertIdle(rows, HitRow(session, hits, n - 1));
    }
  }

  /** Saving the same hits a second time changes nothing. */
  lemma SaveHitsIdempotent(rows: seq<SimilarityRec>, session: string, hits: seq<Hit>)
    requires DistinctHits(hits)
    ensures SaveHits(SaveHits(rows, session, hits), session, hits) == SaveHits(rows, session, hits)
  {
    var saved := SaveHits(rows, session, hits);
    forall k | 0 <= k < |hits| ensures FirstMatch(saved, session, hits[k].recipe) == Some(HitRow(session, hits, k)) {
      SavedHitsAreFound(rows, session, hits, k);
    }
    SavingFoundHits(saved, session, hits, |hits|);
    assert hits[..|hits|] == hits;
  }

  /** The recipe id is the primary key of its table. */
  predicate DistinctRecipes(recipes: seq<RecipeRec>) {
    forall i, j :: 0 <= i < j < |recipes| ==> recipes[i].recipe != recipes[j].recipe
  }

  lemma {:induction false} InsertKeepsDistinct(hits: seq<Hit>, h: Hit)
    requires DistinctHits(hits) && forall x :: x in hits ==> x.recipe != h.recipe
    ensures DistinctHits(InsertHit(hits, h))
  {
    if hits != [] && hits[|hits| - 1].score < h.score {
      var n := |hits| - 1;
      forall x | x in hits[..n] ensures x in hits {
      }
      InsertKeepsDistinct(hits[..n], h);
      var front := InsertHit(hits[..n], h);
      forall i | 0 <= i < |front| ensures front[i].recipe != hits[n].recipe {
        assert front[i] in front;
      }
    }
  }

  lemma {:induction false} RankedHitsAreDistinct(recipes: seq<RecipeRec>, team: string, goalClass: string, goal: string)
    requires DistinctRecipes(recipes)
    ensures DistinctHits(RankedHits(recipes, team, goalClass, goal))
  {
    if recipes != [] {
      var n := |recipes| - 1;
      var before := RankedHits(recipes[..n], team, goalClass, goal);
      RankedHitsAreDistinct(recipes[..n], team, goalClass, goal);
      forall x | x in before ensures x.recipe != recipes[n].recipe {
        var y :| y in recipes[..n] && y.recipe == x.recipe;
      }
      InsertKeepsDistinct(before, Hit(recipes[n].recipe, HitScore(recipes[n], goalClass, goal)));
    }
  }

  // ---- Every stored row is a hit ----

  /** The row is one of the hits that the search for its session returns. */
  ghost predicate IsHitRow(c: Catalog, x: SimilarityRec) {
    var s := FindSession(c, x.session);
    s.Some? && exists k :: 0 <= k < |SessionHits(c, s.value)| && x == HitRow(x.session, SessionHits(c, s.value), k)
  }

  ghost predicate RowsAreHits(c: Catalog, rows: seq<SimilarityRec>) {
    forall x :: x in rows ==> IsHitRow(c, x)
  }

  lemma {:induction false} UpsertMembers(rows: seq<SimilarityRec>, x: SimilarityRec)
    ensures forall y :: y in Upsert(rows, x) ==> y == x || y in rows
  {
    if rows != [] && !(rows[0].session == x.session && rows[0].recipe == x.recipe) {
      UpsertMembers(rows[1..], x);
    }
  }

  lemma {:induction false} SavedRows(rows: seq<SimilarityRec>, session: string, hits: seq<Hit>)
    ensures forall y :: y in SaveHits(rows, session, hits) ==> y in rows || exists k :: 0 <= k < |hits| && y == HitRow(session, hits, k)
  {
    if hits != [] {
      var n := |hits| - 1;
      SavedRows(rows, session, hits[..n]);
      UpsertMembers(SaveHits(rows, session, hits[..n]), HitRow(session, hits, n));
      forall y | y in SaveHits(rows, session, hits)
        ensures y in rows || exists k :: 0 <= k < |hits| && y == HitRow(session, hits, k)
      {
        if y != HitRow(session, hits, n) && y !in rows {
          var k :| 0 <= k < n && y == HitRow(session, hits[..n], k);
          assert y == HitRow(session, hits, k);
        }
      }
    }
  }

  lemma SavingKeepsRows(c: Catalog, rows: seq<SimilarityRec>, s: SessionRec)
    requires RowsAreHits(c, rows) && FindSession(c, s.session) == Some(s)
    ensures RowsAreHits(c, SaveHits(rows, s.session, SessionHits(c, s)))
  {
    hide FindSession, SessionHits;
    SavedRows(rows, s.session, SessionHits(c, s));
  }

  /** What preparing a world does: it saves the session's hits, whatever the world. */
  lemma PreparedSaves(cfg: Config, w: World, s: SessionRec)
    ensures var ready := Prepared(cfg, w, s);
      && ready.similarity == ready.graph.similarity == SaveHits(w.similarity, s.session, SessionHits(cfg.catalog, s))
      && ready.graph.catalog == cfg.catalog && ready.store == w.store && ready.checks == w.checks && ready.calls == w.calls
      && ready.graph.grants == ActiveGrants(w.store.grants, w.store.now)
  {
    hide SaveHits, SessionHits;
  }

  lemma DecidedKeepsRows(cfg: Config, w: World, s: SessionRec, q: Question, p: Picture)
    ensures Decided(cfg, w, s, q, p).0.similarity == w.similarity
  {
    hide QuestionContext, IdempotencyKey, Evaluated, StateText;
  }

  lemma AuthorizeKeepsRows(cfg: Config, w: World, q: Question)
    requires RowsAreHits(cfg.catalog, w.similarity)
    ensures RowsAreHits(cfg.catalog, RunAuthorize(cfg, w, q).0.similarity)
  {
    hide Prepared, Decided, Look, RowsAreHits, SaveHits, SessionHits, FindSession;
    var s := FindSession(cfg.catalog, q.session);
    if s.Some? {
      var ready := Prepared(cfg, w, s.value);
      PreparedSaves(cfg, w, s.value);
      SavingKeepsRows(cfg.catalog, w.similarity, s.value);
      forall p ensures Decided(cfg, ready, s.value, q, p).0.similarity == ready.similarity {
        DecidedKeepsRows(cfg, ready, s.value, q, p);
      }
    }
  }

  lemma PreflightKeepsRows(cfg: Config, w: World, session: string, agent: string, agentActive: bool, predictions: seq<Prediction>)
    requires RowsAreHits(cfg.catalog, w.similarity)
    ensures RowsAreHits(cfg.catalog, RunPreflight(cfg, w, session, agent, agentActive, predictions).similarity)
  {
    hide Anticipate, RowsAreHits, SaveHits, SessionHits, FindSession, PreflightAsked, PreflightDone;
    var s := FindSession(cfg.catalog, session);
    if s.Some? {
      SavingKeepsRows(cfg.catalog, w.similarity, s.value);
    }
  }

  lemma StepKeepsRows(cfg: Config, w: World, step: Step)
    requires RowsAreHits(cfg.catalog, w.similarity)
    ensures RowsAreHits(cfg.catalog, Apply(cfg, w, step).similarity)
  {
    hide RowsAreHits, RunAuthorize, RunPreflight, Announced, LogAll, LogExecution, Consume, ApproveRequest;
    match step
    case PreflightStep(session, agent, agentActive, predictions) => PreflightKeepsRows(cfg, w, session, agent, agentActive, predictions);
    case RequestScopeStep(q) => AuthorizeKeepsRows(cfg, w, q);
    case BeginStep(q) =>
      assert Announced(w, q).similarity == w.similarity by {
        AnnouncedKeeps(w, q);
      }
      AuthorizeKeepsRows(cfg, Announced(w, q), q);
    case ConsumeStep(call, tie) =>
    case ExecuteStep(call, outside) =>
    case ApproveStep(request, approver) =>
    case NoteStep(session, note) =>
    case TickStep(seconds) =>
  }

  /** Announcing a call changes neither grants, clock, checks nor similarity rows. */
  lemma AnnouncedKeeps(w: World, q: Question)
    ensures var a := Announced(w, q);
      && a.store.grants == w.store.grants && a.store.now == w.store.now && a.store.nextId == w.store.nextId
      && a.similarity == w.similarity && a.checks == w.checks && a.calls == w.calls
  {
  }

  /** In every run of a gateway that starts without similarity rows, every row is a hit of its session's search. */
  lemma {:induction false} EveryRunStoresHits(cfg: Config, w: World, steps: seq<Step>)
    requires RowsAreHits(cfg.catalog, w.similarity)
    ensures RowsAreHits(cfg.catalog, Run(cfg, w, steps).similarity)
  {
    hide RowsAreHits, Apply;
    if steps != [] {
      var n := |steps| - 1;
      EveryRunStoresHits(cfg, w, steps[..n]);
      StepKeepsRows(cfg, Run(cfg, w, steps[..n]), steps[n]);
    }
  }

  // ---- Which recipe is matched ----

  /** The recipe of the best hit, or, without any hit, the fallback. */
  function SearchedRecipe(c: Catalog, s: SessionRec): Option<RecipeRec> {
    if SessionHits(c, s) != [] then RecipeById(c, SessionHits(c, s)[0].recipe) else FallbackRecipe(c, s)
  }

  function SearchedRow(c: Catalog, s: SessionRec): Option<SimilarityRec> {
    if SessionHits(c, s) != [] then Some(HitRow(s.session, SessionHits(c, s), 0)) else None
  }

  lemma {:induction false} FirstMatchIsIn(rows: seq<SimilarityRec>, session: string, recipe: string)
    ensures FirstMatch(rows, session, recipe).Some? ==> FirstMatch(rows, session, recipe).value in rows
  {
    if rows != [] {
      FirstMatchIsIn(rows[1..], session, recipe);
    }
  }

  lemma SessionHitsAreDistinct(c: Catalog, s: SessionRec)
    requires DistinctRecipes(c.recipes)
    ensures DistinctHits(SessionHits(c, s))
  {
    RankedHitsAreDistinct(c.recipes, s.team, s.goalClass, s.goal);
  }

  /** The rows of one session, among rows that are hits. */
  lemma RowsOfSession(c: Catalog, rows: seq<SimilarityRec>, s: SessionRec, x: SimilarityRec)
    requires RowsAreHits(c, rows) && FindSession(c, s.session) == Some(s) && x in rows && x.session == s.session
    ensures exists k :: 0 <= k < |SessionHits(c, s)| && x == HitRow(s.session, SessionHits(c, s), k)
  {
    hide FindSession, SessionHits;
    assert IsHitRow(c, x);
  }

  /** The best hit is stored by the preparation, and it is the best row. */
  lemma BestHitIsStored(c: Catalog, rows: seq<SimilarityRec>, s: SessionRec)
    requires DistinctRecipes(c.recipes) && RowsAreHits(c, rows) && FindSession(c, s.session) == Some(s) && SessionHits(c, s) != []
    ensures var saved, top := SaveHits(rows, s.session, SessionHits(c, s)), HitRow(s.session, SessionHits(c, s), 0);
      && RowsAreHits(c, saved) && top in saved
      && ReifiedRows(saved, s.session) != [] && Best(ReifiedRows(saved, s.session)) == top
  {
    hide FindSession, SessionHits, SaveHits, RowsAreHits, ReifiedRows, Best;
    var hits := SessionHits(c, s);
    var saved, top := SaveHits(rows, s.session, hits), HitRow(s.session, hits, 0);
    SavingKeepsRows(c, rows, s);
    SessionHitsAreDistinct(c, s);
    SavedHitsAreFound(rows, s.session, hits, 0);
    FirstMatchIsIn(saved, s.session, hits[0].recipe);
    assert top in ReifiedRows(saved, s.session);
    RowsOfSession(c, saved, s, Best(ReifiedRows(saved, s.session)));
  }

  lemma OneRecipePerId(recipes: seq<RecipeRec>, a: RecipeRec, b: RecipeRec)
    requires DistinctRecipes(recipes) && a in recipes && b in recipes && a.recipe == b.recipe
    ensures a == b
  {
  }

  /** The recipe of a hit is found, and it is accepted. */
  lemma HitRecipeFound(c: Catalog, s: SessionRec, h: Hit)
    requires DistinctRecipes(c.recipes) && h in SessionHits(c, s)
    ensures RecipeById(c, h.recipe).Some? && IsHit(h, RecipeById(c, h.recipe).value, s.team, s.goalClass, s.goal)
  {
    hide SessionHits, RecipeById, HitScore, DistinctRecipes;
    var x :| x in c.recipes && IsHit(h, x, s.team, s.goalClass, s.goal);
    OneRecipePerId(c.recipes, x, RecipeById(c, h.recipe).value);
  }

  /** With hits, the matched recipe is the best one. */
  lemma MatchedByHit(c: Catalog, grants: seq<Grant>, rows: seq<SimilarityRec>, s: SessionRec)
    requires DistinctRecipes(c.recipes) && RowsAreHits(c, rows) && FindSession(c, s.session) == Some(s) && SessionHits(c, s) != []
    ensures var data := GraphData(c, grants, SaveHits(rows, s.session, SessionHits(c, s)));
      && MatchedRecipe(data, s) == SearchedRecipe(c, s)
      && SimilarityOf(data, s.session, MatchedRecipe(data, s)) == SearchedRow(c, s)
  {
    hide FindSession, SessionHits, SaveHits, RowsAreHits, ReifiedRows, Best, RecipeById, HitScore, DistinctRecipes;
    var hits := SessionHits(c, s);
    var data := GraphData(c, grants, SaveHits(rows, s.session, hits));
    BestHitIsStored(c, rows, s);
    HitRecipeFound(c, s, hits[0]);
    SessionHitsAreDistinct(c, s);
    assert MatchedRecipe(data, s) == RecipeById(c, hits[0].recipe);
    var top := HitRow(s.session, hits, 0);
    assert top.session == s.session && top.recipe == MatchedRecipe(data, s).value.recipe;
    var row := SimilarityOf(data, s.session, MatchedRecipe(data, s));
    assert row.Some?;
    RowsOfSession(c, data.similarity, s, row.value);
  }

  /** Without hits, no row of the session is stored and the matched recipe is the fallback. */
  lemma MatchedByFallback(c: Catalog, grants: seq<Grant>, rows: seq<SimilarityRec>, s: SessionRec)
    requires RowsAreHits(c, rows) && FindSession(c, s.session) == Some(s) && SessionHits(c, s) == []
    ensures var data := GraphData(c, grants, SaveHits(rows, s.session, SessionHits(c, s)));
      && MatchedRecipe(data, s) == SearchedRecipe(c, s)
      && SimilarityOf(data, s.session, MatchedRecipe(data, s)) == SearchedRow(c, s)
  {
    hide FindSession, SessionHits, RowsAreHits, ReifiedRows, Best, RecipeById, FallbackRecipe;
    forall x | x in rows ensures x.session != s.session {
      if x.session == s.session {
        RowsOfSession(c, rows, s, x);
      }
    }
  }

  /** The recipe and the similarity row that the prepared gateway looks up depend on the catalog alone. */
  lemma PreparedMatch(cfg: Config, w: World, s: SessionRec)
    requires DistinctRecipes(cfg.catalog.recipes) && RowsAreHits(cfg.catalog, w.similarity)
    requires FindSession(cfg.catalog, s.session) == Some(s)
    ensures var graph := Prepared(cfg, w, s).graph;
      && graph.catalog == cfg.catalog
      && MatchedRecipe(graph, s) == SearchedRecipe(cfg.catalog, s)
      && SimilarityOf(graph, s.session, SearchedRecipe(cfg.catalog, s)) == SearchedRow(cfg.catalog, s)
  {
    hide Prepared, MatchedRecipe, SearchedRecipe, SearchedRow, SimilarityOf, SaveHits, SessionHits, FindSession,
         RowsAreHits, DistinctRecipes;
    var c, graph := cfg.catalog, Prepared(cfg, w, s).graph;
    PreparedSaves(cfg, w, s);
    assert graph == GraphData(c, graph.grants, SaveHits(w.similarity, s.session, SessionHits(c, s)));
    if SessionHits(c, s) != [] {
      MatchedByHit(c, graph.grants, w.similarity, s);
    } else {
      MatchedByFallback(c, graph.grants, w.similarity, s);
    }
  }

  lemma PreparedPicture(cfg: Config, w: World, s: SessionRec, tool: string, resource: string, now: nat, p: Picture)
    requires DistinctRecipes(cfg.catalog.recipes) && RowsAreHits(cfg.catalog, w.similarity)
    requires FindSession(cfg.catalog, s.session) == Some(s)
    requires Look(Prepared(cfg, w, s).graph, s.session, tool, resource, now, cfg.parse) == Ok(p)
    ensures p.s == s && p.recipe == SearchedRecipe(cfg.catalog, s) && p.similarity == SearchedRow(cfg.catalog, s)
  {
    hide Prepared, MatchedRecipe, SearchedRecipe, SearchedRow, SimilarityOf, FindSession, RowsAreHits, GrantPresent, DistinctRecipes;
    PreparedMatch(cfg, w, s);
  }

  /** Two graphs that match the same recipe and row, and differ in their grants, give pictures that differ in the grant flag. */
  lemma LookAgain(a: GraphData, b: GraphData, session: string, tool: string, resource: string, t: nat, u: nat, parse: Parsers, p: Picture)
    requires a.catalog == b.catalog && Look(a, session, tool, resource, t, parse) == Ok(p)
    requires MatchedRecipe(b, p.s) == p.recipe && SimilarityOf(b, session, p.recipe) == p.similarity
    ensures Look(b, session, tool, resource, u, parse)
         == Ok(p.(grantPresent := GrantPresent(b.grants, session, p.ts.scope, resource, u, parse)))
  {
    hide MatchedRecipe, SimilarityOf, GrantPresent;
  }

  /**
   * Whatever happened in between, the gateway looks up the same rows for the same question: two prepared worlds give
   * pictures that differ in the grant flag at most.
   */
  lemma PicturesDifferInGrant(cfg: Config, w: World, later: World, s: SessionRec, tool: string, resource: string, t: nat, u: nat, p: Picture)
    requires DistinctRecipes(cfg.catalog.recipes) && FindSession(cfg.catalog, s.session) == Some(s)
    requires RowsAreHits(cfg.catalog, w.similarity) && RowsAreHits(cfg.catalog, later.similarity)
    requires Look(Prepared(cfg, w, s).graph, s.session, tool, resource, t, cfg.parse) == Ok(p)
    ensures var graph := Prepared(cfg, later, s).graph;
      Look(graph, s.session, tool, resource, u, cfg.parse)
      == Ok(p.(grantPresent := GrantPresent(graph.grants, s.session, p.ts.scope, resource, u, cfg.parse)))
  {
    hide Prepared, Look, MatchedRecipe, SearchedRecipe, SearchedRow, SimilarityOf, FindSession, RowsAreHits, GrantPresent, DistinctRecipes;
    PreparedMatch(cfg, w, s);
    PreparedMatch(cfg, later, s);
    PreparedPicture(cfg, w, s, tool, resource, t, p);
    LookAgain(Prepared(cfg, w, s).graph, Prepared(cfg, later, s).graph, s.session, tool, resource, t, u, cfg.parse, p);
  }

  /** The graph of a gateway that has searched for one session and holds no grants. */
  function SearchedGraph(c: Catalog, s: SessionRec): GraphData {
    GraphData(c, [], SaveHits([], s.session, SessionHits(c, s)))
  }

  /** What the catalog alone shows for a question, with or without a grant. */
  function SearchedPicture(cfg: Config, s: SessionRec, tool: string, resource: string, granted: bool): Result<Picture> {
    hide Look;
    match Look(SearchedGraph(cfg.catalog, s), s.session, tool, resource, 0, cfg.parse)
    case Err(e) => Err(e)
    case Ok(p) => Ok(p.(grantPresent := granted))
  }

  /** The rows that a prepared world looks up are those that the catalog alone shows, but for the grant. */
  lemma PreparedSearch(cfg: Config, w: World, s: SessionRec, tool: string, resource: string, now: nat, p: Picture)
    requires DistinctRecipes(cfg.catalog.recipes) && RowsAreHits(cfg.catalog, w.similarity)
    requires FindSession(cfg.catalog, s.session) == Some(s)
    requires Look(Prepared(cfg, w, s).graph, s.session, tool, resource, now, cfg.parse) == Ok(p)
    ensures SearchedPicture(cfg, s, tool, resource, p.grantPresent) == Ok(p)
  {
    hide Prepared, Look, MatchedRecipe, SearchedRecipe, SearchedRow, SimilarityOf, FindSession, RowsAreHits, GrantPresent,
         DistinctRecipes, SaveHits, SessionHits;
    PreparedMatch(cfg, w, s);
    PreparedPicture(cfg, w, s, tool, resource, now, p);
    assert RowsAreHits(cfg.catalog, []) by {
      NoRows(cfg.catalog);
    }
    if SessionHits(cfg.catalog, s) != [] {
      MatchedByHit(cfg.catalog, [], [], s);
    } else {
      MatchedByFallback(cfg.catalog, [], [], s);
    }
    LookAgain(Prepared(cfg, w, s).graph, SearchedGraph(cfg.catalog, s), s.session, tool, resource, now, 0, cfg.parse, p);
  }

  lemma NoRows(c: Catalog)
    ensures RowsAreHits(c, [])
  {
  }

  // ---- What an executable answer rests on ----

  lemma {:induction false} AcceptedIsHit(recipes: seq<RecipeRec>, x: RecipeRec, team: string, goalClass: string, goal: string)
    requires x in recipes && x.team == team && x.status == "accepted" && HitScore(x, goalClass, goal) > 0
    ensures RankedHits(recipes, team, goalClass, goal) != []
  {
    hide HitScore;
    var n := |recipes| - 1;
    if x in recipes[..n] {
      AcceptedIsHit(recipes[..n], x, team, goalClass, goal);
    } else {
      assert x == recipes[n];
    }
  }

  /** Without any hit, the fallback recipe is not an accepted one. */
  lemma FallbackIsNotAccepted(c: Catalog, s: SessionRec)
    requires SessionHits(c, s) == [] && FallbackRecipe(c, s).Some?
    ensures FallbackRecipe(c, s).value.status != "accepted"
  {
    var x := FallbackRecipe(c, s).value;
    if x.status == "accepted" {
      AcceptedIsHit(c.recipes, x, s.team, s.goalClass, s.goal);
    }
  }

  /** Only a goal that names both the class and the title of a recipe of its class scores at least 0.82. */
  lemma PerfectScore(x: RecipeRec, goalClass: string, goal: string)
    ensures HitScore(x, goalClass, goal) >= MIN_RECIPE_SCORE
       <==> x.goalClass == goalClass && Contains(Lower(goal), Lower(x.goalClass)) && Contains(Lower(goal), Lower(x.title))
  {
  }

  /** An accepted recipe was matched. */
  predicate MatchedAccepted(p: Picture) {
    p.recipe.Some? && p.recipe.value.status == "accepted"
  }

  /** The rows hold a reified score of at least 0.82 for the matched recipe. */
  ghost predicate MatchedStored(p: Picture, rows: seq<SimilarityRec>) {
    p.recipe.Some? && StoredHit(rows, p.s.session, p.recipe.value.recipe)
  }

  /** The matched recipe is the best hit, and the goal names it in full. */
  predicate MatchedEarned(p: Picture, c: Catalog) {
    p.recipe.Some? && SessionHits(c, p.s) != [] && Earned(SessionHits(c, p.s)[0], p.recipe.value, p.s)
  }

  /** The hit of an accepted recipe of the session's team, whose class and title the goal names. */
  predicate Earned(h: Hit, x: RecipeRec, s: SessionRec) {
    && IsHit(h, x, s.team, s.goalClass, s.goal)
    && x.goalClass == s.goalClass && Contains(Lower(s.goal), Lower(x.goalClass)) && Contains(Lower(s.goal), Lower(x.title))
  }

  /**
   * The recipe behind an executable answer of the gateway. If the search for the session returns any hit, it is the best
   * hit: an accepted recipe of the session's team and goal class, both of whose names the goal mentions, and the tables
   * hold its score. Otherwise it is a recipe that nobody accepted, and the tables hold no score for it.
   */
  lemma ExecutableRecipeIff(
    cfg: Config, w: World, ready: World, s: SessionRec, tool: string, resource: string, now: nat, p: Picture,
    binding: Option<BindingRec>, snapshotId: nat, commit: string)
    requires DistinctRecipes(cfg.catalog.recipes) && RowsAreHits(cfg.catalog, w.similarity) && ready == Prepared(cfg, w, s)
    requires FindSession(cfg.catalog, s.session) == Some(s)
    requires Look(ready.graph, s.session, tool, resource, now, cfg.parse) == Ok(p)
    requires Answered(p, s.session, tool, resource, binding, snapshotId, commit, cfg.thresholds)
    ensures MatchedAccepted(p) <==> SessionHits(cfg.catalog, s) != []
    ensures MatchedStored(p, ready.similarity) <==> SessionHits(cfg.catalog, s) != []
    ensures MatchedEarned(p, cfg.catalog) <==> SessionHits(cfg.catalog, s) != []
  {
    hide Prepared, Look, Answered, SessionHits, FindSession, RowsAreHits, Contains, Lower, HitScore, DistinctRecipes,
         StoredHit, StoredRow, FallbackRecipe, RecipeById;
    PreparedPicture(cfg, w, s, tool, resource, now, p);
    PreparedSaves(cfg, w, s);
    ExecutableScoreIff(ready.graph, s.session, tool, resource, now, cfg.parse, p, binding, snapshotId, commit, cfg.thresholds);
    SimilarityFound(ready.graph, s.session, tool, resource, now, cfg.parse, p);
    if SessionHits(cfg.catalog, s) != [] {
      HitRecipeFound(cfg.catalog, s, SessionHits(cfg.catalog, s)[0]);
      GatewayExecutesIff(p, s.session, tool, resource, binding, snapshotId, commit, cfg.thresholds);
      RunsParts(p, s.session, tool, resource, cfg.thresholds);
      PerfectScore(p.recipe.value, s.goalClass, s.goal);
    } else {
      FallbackIsNotAccepted(cfg.catalog, s);
    }
  }
}
