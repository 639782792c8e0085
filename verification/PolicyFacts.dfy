/**
 * The fact strings of a decision (platform/cozo_policy.py): one for each row and no other, and how a row reads.
 */
module PolicyFacts {
  import opened Wrappers
  import opened Json
  import opened Canonical
  import opened PyText
  import opened PolicyTable
  import opened PolicyRows
  import opened PolicyDatalog
  import opened PolicyCompile
  import opened PolicyDecide
  import opened PolicyReads

  /** The text is one of a table's rows. */
  ghost predicate FactOf(text: string, t: Field) {
    t.value.Arr? && exists k :: 0 <= k < |t.value.items| && text == RenderRow(t.key, t.value.items[k])
  }

  ghost predicate FactOfSome(text: string, tables: seq<Field>) {
    exists n :: 0 <= n < |tables| && FactOf(text, tables[n])
  }

  lemma FactsOfTable(text: string, t: Field)
    ensures FactOf(text, t) <==> t.value.Arr? && text in RelationFacts(t.key, t.value.items)
  {
    hide RenderRow;
    if FactOf(text, t) {
      var k :| 0 <= k < |t.value.items| && text == RenderRow(t.key, t.value.items[k]);
      assert RelationFacts(t.key, t.value.items)[k] == text;
    }
  }

  lemma {:induction false} FactsOfTables(text: string, tables: seq<Field>)
    ensures text in FactStrings(tables) <==> FactOfSome(text, tables)
  {
    hide FactOf, RelationFacts;
    if tables != [] {
      var n := |tables| - 1;
      FactsOfTable(text, tables[n]);
      FactsOfTables(text, tables[..n]);
      if FactOfSome(text, tables[..n]) {
        var m :| 0 <= m < n && FactOf(text, tables[..n][m]);
        assert FactOf(text, tables[m]);
      }
      if FactOfSome(text, tables) && !FactOf(text, tables[n]) {
        var m :| 0 <= m < |tables| && FactOf(text, tables[m]);
        assert tables[..n][m] == tables[m];
      }
    }
  }

  /** A compiled record lists a text exactly when it is a row of one of its tables. */
  lemma FactsAreRows(sha: Value -> string, i: Inputs, c: Carried, text: string)
    ensures text in CompiledFrom(sha, i, c).facts <==> FactOfSome(text, RowsJson(RowsOf(i)))
  {
    hide RowsJson, RowsOf, FactOf, FactStrings, FactSetTree;
    var tables := RowsJson(RowsOf(i));
    FactsOfTables(text, SortFields(tables));
    SortFieldsPermutes(tables);
    if FactOfSome(text, tables) {
      var n :| 0 <= n < |tables| && FactOf(text, tables[n]);
      assert tables[n] in SortFields(tables);
    }
    if FactOfSome(text, SortFields(tables)) {
      var n :| 0 <= n < |SortFields(tables)| && FactOf(text, SortFields(tables)[n]);
      assert SortFields(tables)[n] in tables;
    }
  }

  // ---- How a row reads ----

  /** Cells are separated by a comma and a blank. */
  lemma {:induction false} CellsJoined(cells: seq<Value>, last: Value)
    requires cells != []
    ensures RenderCells(cells + [last]) == RenderCells(cells) + ", " + RenderCell(last)
  {
    hide RenderCell;
    assert (cells + [last])[1..] == cells[1..] + [last];
    if |cells| > 1 {
      CellsJoined(cells[1..], last);
      var a, b, c, d := RenderCell(cells[0]), RenderCells(cells[1..]), ", ", RenderCell(last);
      assert a + c + (b + c + d) == a + c + b + c + d;
    }
  }

  lemma FourCells(a: Value, b: Value, c: Value, d: Value)
    ensures RenderCells([a, b, c, d]) == RenderCell(a) + ", " + RenderCell(b) + ", " + RenderCell(c) + ", " + RenderCell(d)
  {
    hide RenderCell;
    CellsJoined([a], b);
    CellsJoined([a, b], c);
    CellsJoined([a, b, c], d);
    assert [a] + [b] == [a, b] && [a, b] + [c] == [a, b, c] && [a, b, c] + [d] == [a, b, c, d];
  }

  /** Truth values are written small, unlike in Python's own text. */
  lemma CellsRead(text: string, n: nat)
    requires n < 1000
    ensures RenderCell(Bool(true)) == "true" && RenderCell(Bool(false)) == "false" && RenderCell(Str(text)) == text
    ensures TextOf(Bool(true)) == "True" && TextOf(Bool(false)) == "False"
  {
  }

  function SchemaRowOf(i: Inputs): Value {
    Arr([Str(i.session), Str(i.tool), Bool(i.schemaValid), Bool(i.schemaRepairable)])
  }

  lemma SchemaTable(i: Inputs)
    ensures |RowsJson(RowsOf(i))| == 18
    ensures RowsJson(RowsOf(i))[3].key == "schema_state" && RowsJson(RowsOf(i))[3].value.Arr?
    ensures |RowsJson(RowsOf(i))[3].value.items| == 1 && RowsJson(RowsOf(i))[3].value.items[0] == SchemaRowOf(i)
  {
  }

  /** The row of a call with unusable arguments, as it is listed. */
  lemma SchemaFact(sha: Value -> string, i: Inputs, c: Carried)
    requires !i.schemaValid && i.schemaRepairable
    ensures "schema_state" + "(" + (i.session + ", " + i.tool + ", " + "false" + ", " + "true") + ")" in CompiledFrom(sha, i, c).facts
  {
    hide RowsJson, RowsOf, CompiledFrom, FactOfSome;
    SchemaTable(i);
    FourCells(Str(i.session), Str(i.tool), Bool(false), Bool(true));
    FactListed(sha, i, c, 3, 0);
    hide RenderCells;
  }

  lemma FactListed(sha: Value -> string, i: Inputs, c: Carried, n: nat, k: nat)
    requires n < |RowsJson(RowsOf(i))|
    requires var t := RowsJson(RowsOf(i))[n]; t.value.Arr? && k < |t.value.items|
    ensures var t := RowsJson(RowsOf(i))[n]; RenderRow(t.key, t.value.items[k]) in CompiledFrom(sha, i, c).facts
  {
    hide RowsJson, RowsOf, CompiledFrom, RenderRow;
    var t := RowsJson(RowsOf(i))[n];
    var text := RenderRow(t.key, t.value.items[k]);
    assert FactOf(text, t);
    assert FactOfSome(text, RowsJson(RowsOf(i)));
    FactsAreRows(sha, i, c, text);
  }

  // ---- The rows that are listed ----

  /** The table of this name has these rows. */
  predicate Lists(t: Field, name: string, rows: seq<seq<Value>>) {
    && t.key == name && t.value.Arr? && |t.value.items| == |rows|
    && forall k :: 0 <= k < |rows| ==> t.value.items[k] == Arr(rows[k])
  }

  function OnlyIf(present: bool, cells: seq<Value>): seq<seq<Value>> {
    if present then [cells] else []
  }

  /** Who acts for whom, and what may be used, each listed exactly when it is so. */
  lemma GrantTables(i: Inputs)
    ensures var t := RowsJson(RowsOf(i));
      && |t| == 18 && Lists(t[6], "delegation", OnlyIf(i.delegationPresent, [Str(i.session), Str(i.user), Str(i.agent)]))
      && Lists(t[10], "current_grant", OnlyIf(i.grantPresent, [Str(i.session), Str(i.scope), Str(i.resource)]))
      && Lists(t[11], "context_path",
               OnlyIf(i.contextPath != [], [Str(i.session), Str(i.tool), Str(i.resource), Str(i.scope), Str(JoinPath(i.contextPath))]))
  {
  }

  /** What the recipe memory says, listed only for a known recipe. */
  lemma RecipeTables(i: Inputs)
    ensures var t := RowsJson(RowsOf(i));
      && |t| == 18
      && Lists(t[7], "similar_recipe",
               OnlyIf(i.recipe != "recipe_unknown", [Str(i.session), Str(i.recipe), Num(i.score), Str("accepted"), Bool(i.reified)]))
      && Lists(t[8], "recipe_tool", OnlyIf(i.recipePredictsTool && i.recipe != "recipe_unknown", [Str(i.recipe), Str(i.tool)]))
  {
  }

  /** Judges and violations, one row each, in their order. */
  lemma JudgeTables(i: Inputs)
    ensures var t := RowsJson(RowsOf(i));
      && |t| == 18
      && Lists(t[14], "judge_fact",
               seq(|i.judges|, k requires 0 <= k < |i.judges| =>
                 var j := i.judges[k]; [Str(j.session), Str(j.tool), Str(j.name), Bool(j.value), Num(j.confidence)]))
      && Lists(t[15], "violation",
               seq(|i.violations|, k requires 0 <= k < |i.violations| =>
                 [Str(i.session), Str(i.tool), Str(i.resource), Str(i.violations[k])]))
  {
  }

  /** The flags, with those of the context snapshot always there, and the trust score with both comparisons. */
  lemma FlagTables(i: Inputs)
    ensures var t := RowsJson(RowsOf(i));
      && |t| == 18
      && Lists(t[16], "policy_flag",
               [[Str(i.session), Str("context_snapshot_present"), Bool(i.snapshotPresent)]]
               + (if i.breakGlass.Some? then [[Str(i.session), Str("break_glass"), Bool(i.breakGlass.value)]] else [])
               + (if i.externalWritePredicted.Some?
                  then [[Str(i.session), Str("external_write_predicted"), Bool(i.externalWritePredicted.value)]] else []))
      && Lists(t[17], "agent_trust_state",
               if i.trust.None? then []
               else [[Str(i.session), Num(i.trust.value), Bool(i.trust.value < i.thresholds.minimum), Bool(i.trust.value < i.thresholds.sensitive)]])
  {
  }

  /** The path under the path hash is joined by bars. */
  lemma {:induction false} PathJoined(path: seq<string>, last: string)
    requires path != []
    ensures JoinPath(path + [last]) == JoinPath(path) + "|" + last
  {
    assert (path + [last])[1..] == path[1..] + [last];
    if |path| > 1 {
      PathJoined(path[1..], last);
      var a, b, c := path[0], JoinPath(path[1..]), "|";
      assert a + c + (b + c + last) == a + c + b + c + last;
    }
  }

  // ---- Judges ----

  /** A judge that has something to say is listed with it and its confidence, which is nothing unless it is given. */
  lemma {:induction false} JudgesListed(session: string, tool: string, facts: Facts, keys: seq<string>, judge: string)
    requires JudgeRows(session, tool, facts, keys).Ok?
    ensures var rows := JudgeRows(session, tool, facts, keys).value;
      (exists j :: j in rows && j.name == judge) <==> judge in keys && judge in facts
    ensures forall j :: j in JudgeRows(session, tool, facts, keys).value ==>
      && j.session == session && j.tool == tool && j.name in facts && j.value == Says(facts, j.name)
      && Some(j.confidence) == if j.name + "_confidence" in facts then Score(facts[j.name + "_confidence"]) else Some(0)
  {
    hide Truthy;
    if keys != [] {
      JudgesListed(session, tool, facts, keys[1..], judge);
    }
  }

  // ---- The candidates in the proof ----

  predicate Describes(v: Value, c: Candidate) {
    && v.Obj? && Field("decision", Str(DecisionText(c.decision))) in v.fields && Field("reason", Str(c.reason)) in v.fields
    && Field("rule", Str(RuleText(c.rule))) in v.fields && Field("precedence", Num(c.precedence)) in v.fields
  }

  lemma EntryDescribes(c: Candidate)
    ensures Describes(Obj([Field("decision", Str(DecisionText(c.decision))), Field("reason", Str(c.reason)),
                           Field("rule", Str(RuleText(c.rule))), Field("precedence", Num(c.precedence))]), c)
  {
    hide DecisionText, RuleText;
  }

  /** The proof lists each candidate of the query, with its decision, reason, rule and precedence, and nothing else. */
  lemma {:induction false} CandidatesListed(db: Rows, rules: seq<Rule>)
    ensures forall r :: r in rules && Outcome(r) in CandidateQuery(db) ==> exists v :: v in CandidateJson(db, rules) && Describes(v, Outcome(r))
    ensures forall v :: v in CandidateJson(db, rules) ==> exists r :: r in rules && Outcome(r) in CandidateQuery(db) && Describes(v, Outcome(r))
  {
    hide CandidateQuery, Outcome, DecisionText, RuleText, Describes;
    if rules != [] {
      EntryDescribes(Outcome(rules[0]));
      CandidatesListed(db, rules[1..]);
    }
  }
}
