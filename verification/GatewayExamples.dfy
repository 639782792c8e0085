/** Small tables on which executable answers are less than one would hope (platform/graph_fallback.py, platform/cozo_policy.py). */
module GatewayExamples {
  import opened Wrappers
  import opened PolicyRows
  import opened GrantLifecycle
  import opened GraphFallback
  import opened GatewayContext
  import opened GatewayExecutes
  import opened GatewayJustification

  const OWNER := "t"
  const ALLOWED := Grant(1, "s", "c", "x", "human", "", 1, 1, None, 0)

  /** One session of a team, one recipe of a status, one tool, one resource of team `t`, one live grant. */
  function Tables(team: string, status: string, similarity: seq<SimilarityRec>): GraphData {
    GraphData(
      Catalog([SessionRec("s", "u", team, "a", "goal", "g")], [], [DelegationRec("s", "u", "a")],
              [RecipeRec("r", "title", OWNER, "g", status)], [RecipeToolRec("r", "l")], [],
              [ResourceRec("x", OWNER, "normal", false)], [ToolScopeRec("l", "c", "read")]),
      [ALLOWED], similarity)
  }

  /** What the question of session `s` about tool `l` and resource `x` looks up when it matches the recipe. */
  function Seen(team: string, status: string, similarity: Option<SimilarityRec>): Picture {
    Picture(SessionRec("s", "u", team, "a", "goal", "g"), ResourceRec("x", OWNER, "normal", false), ToolScopeRec("l", "c", "read"),
            Some(RecipeRec("r", "title", OWNER, "g", status)), true, true, None, true, None, similarity)
  }

  lemma SeenPath(team: string, status: string, similarity: Option<SimilarityRec>)
    ensures PathOf(Seen(team, status, similarity), "s", "l", "x") == ["s", "r", "l", "c", "x", "t", "u", "a"]
  {
    hide NonEmpty;
    NothingEmpty(["s", "r", "l", "c", "x", "t", "u", "a"]);
  }

  /** The picture ends in an executable answer, whatever the thresholds, the credential binding and the snapshot are. */
  lemma SeenRuns(
    team: string, status: string, similarity: Option<SimilarityRec>,
    binding: Option<BindingRec>, snapshotId: nat, commit: string, th: Thresholds)
    requires team == OWNER || team == ""
    requires similarity.Some? ==> similarity.value.score >= MIN_RECIPE_SCORE && similarity.value.reified
    ensures Answered(Seen(team, status, similarity), "s", "l", "x", binding, snapshotId, commit, th)
  {
    hide PathOf, Answered;
    SeenPath(team, status, similarity);
    GatewayExecutesIff(Seen(team, status, similarity), "s", "l", "x", binding, snapshotId, commit, th);
  }

  lemma DraftSeen(now: nat, parse: Parsers)
    ensures Look(Tables("t", "draft", []), "s", "l", "x", now, parse) == Ok(Seen("t", "draft", None))
  {
  }

  /** An executable answer may rest on a recipe that nobody accepted, with no stored score. */
  lemma DraftRecipeRuns(now: nat, parse: Parsers, binding: Option<BindingRec>, snapshotId: nat, commit: string, th: Thresholds)
    ensures var data, p := Tables("t", "draft", []), Seen("t", "draft", None);
      && Look(data, "s", "l", "x", now, parse) == Ok(p)
      && Answered(p, "s", "l", "x", binding, snapshotId, commit, th)
      && p.recipe.value.status != "accepted" && data.similarity == []
  {
    hide Look, Answered;
    DraftSeen(now, parse);
    SeenRuns("t", "draft", None, binding, snapshotId, commit, th);
  }

  const HIT := SimilarityRec("s", "r", 1000, 1, true)

  lemma TeamlessSeen(now: nat, parse: Parsers)
    ensures Look(Tables("", "accepted", [HIT]), "s", "l", "x", now, parse) == Ok(Seen("", "accepted", Some(HIT)))
  {
  }

  /** A session without a team uses another team's resource, with an accepted recipe and a perfect stored score. */
  lemma TeamlessSessionRuns(now: nat, parse: Parsers, binding: Option<BindingRec>, snapshotId: nat, commit: string, th: Thresholds)
    ensures var data, p := Tables("", "accepted", [HIT]), Seen("", "accepted", Some(HIT));
      && Look(data, "s", "l", "x", now, parse) == Ok(p)
      && Answered(p, "s", "l", "x", binding, snapshotId, commit, th)
      && p.res.team != p.s.team
  {
    hide Look, Answered;
    TeamlessSeen(now, parse);
    SeenRuns("", "accepted", Some(HIT), binding, snapshotId, commit, th);
  }
}
