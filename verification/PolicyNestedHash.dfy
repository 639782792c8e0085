/**
 * Which reorderings below the top level of the facts reach the compiled record, and which reach the hashes
 * (platform/cozo_policy.py): the exact conditions.
 */
module PolicyNestedHash {
  import opened Wrappers
  import opened Json
  import opened Canonical
  import opened PyText
  import opened PolicyTable
  import opened PolicyRows
  import opened PolicyCompile
  import opened PolicyDecide
  import opened PolicyOrdered
  import opened PolicyNested
  import opened HashContents

  // ---- The hash of the rows tells their texts ----

  lemma EntryIsSorted(x: seq<Field>, n: nat)
    requires n < |x|
    ensures Field(x[n].key, SortKeys(x[n].value)) in SortedValues(Obj(x))
  {
    hide SortKeys;
    assert SortedValues(Obj(x))[n] == Field(x[n].key, SortKeys(x[n].value));
  }

  lemma EntryIsOne(x: seq<Field>, n: nat)
    requires n < |x| && forall m :: 0 <= m < |x| && x[m].key == x[n].key ==> m == n
    ensures forall f :: f in SortedValues(Obj(x)) && f.key == x[n].key ==> f.value == SortKeys(x[n].value)
  {
    hide SortKeys;
  }

  /** A list of rows, each of them a list of scalars. */
  predicate Flat(v: Value) {
    v.Arr? && forall k :: 0 <= k < |v.items| ==> FlatRow(v.items[k])
  }

  predicate FlatRow(v: Value) {
    v.Arr? && forall k :: 0 <= k < |v.items| ==> !v.items[k].Arr? && !v.items[k].Obj?
  }

  lemma FlatRowStays(v: Value)
    requires FlatRow(v)
    ensures SortKeys(v) == v
  {
  }

  lemma FlatStays(v: Value)
    requires Flat(v)
    ensures SortKeys(v) == v
  {
    forall k | 0 <= k < |v.items| ensures SortKeys(v.items[k]) == v.items[k] {
      FlatRowStays(v.items[k]);
    }
    hide Flat;
  }

  /** Equal canonical forms have equal tables of one name. */
  lemma SameTable(x: seq<Field>, y: seq<Field>, n: nat)
    requires n < |x| && n < |y| && x[n].key == y[n].key && Flat(x[n].value) && Flat(y[n].value)
    requires forall m :: 0 <= m < |y| && y[m].key == y[n].key ==> m == n
    requires SortKeys(Obj(x)) == SortKeys(Obj(y))
    ensures x[n].value == y[n].value
  {
    hide SortKeys, SortedValues, Flat;
    EntryIsSorted(x, n);
    EntryIsOne(y, n);
    CanonicalField(Obj(x), Obj(y), x[n].key, x[n].value, y[n].value);
    FlatStays(x[n].value);
    FlatStays(y[n].value);
  }

  /** The names of the tables, in the order of the compiler's dictionary. */
  const TABLES: seq<string> := [
    "session", "requested_tool", "requested_resource", "schema_state", "tool_scope", "resource", "delegation",
    "similar_recipe", "recipe_tool", "recipe_scope", "current_grant", "context_path", "tool_credential_required",
    "credential_binding", "judge_fact", "violation", "policy_flag", "agent_trust_state"]

  lemma NamesDiffer()
    ensures forall i, j :: 0 <= i < j < |TABLES| ==> TABLES[i] != TABLES[j]
  {
  }

  lemma TablesNamed(r: Rows)
    ensures |RowsJson(r)| == |TABLES| == 18 && forall n :: 0 <= n < 18 ==> RowsJson(r)[n].key == TABLES[n]
  {
  }

  function OneRow(cells: seq<Value>): Value {
    Arr([Arr(cells)])
  }

  /** The tables that show the texts, as the hash sees them. */
  function TextTable(i: Inputs, n: nat): Value {
    if n == 0 then OneRow([Str(i.session), Str(i.user), Str(i.team), Str(i.agent), Str(i.goalClass)])
    else if n == 1 then OneRow([Str(i.session), Str(i.tool)])
    else if n == 2 then OneRow([Str(i.session), Str(i.resource)])
    else if n == 4 then OneRow([Str(i.tool), Str(i.scope), Str(i.accessKind), Str(i.risk)])
    else if n == 5 then OneRow([Str(i.resource), Str(i.resourceTeam), Str(i.sensitivity), Bool(i.external)])
    else if n == 9 && i.approvalMode.Some? && KnownRecipe(i) then OneRow([Str(i.recipe), Str(i.scope), Str(i.approvalMode.value)])
    else if n == 12 && i.credentialClass.Some? then OneRow([Str(i.tool), Str(i.credentialClass.value)])
    else if n == 13 && i.binding.Some? then
      var x := i.binding.value;
      OneRow([Str(x.binding), Str(x.tool), Str(x.scope), Str(x.credentialRef), Str(x.provider), Str(x.refStatus),
              Str(x.injectionMode), Str(x.ownerTeam), Bool(x.exposesSecret)])
    else Arr([])
  }

  predicate ShowsText(n: nat) {
    n == 0 || n == 1 || n == 2 || n == 4 || n == 5 || n == 9 || n == 12 || n == 13
  }

  lemma TextTableIsFlat(i: Inputs, n: nat)
    ensures Flat(TextTable(i, n))
  {
  }

  lemma AskTablesOf(i: Inputs, n: nat)
    requires n == 0 || n == 1 || n == 2
    ensures |RowsJson(RowsOf(i))| == 18 && RowsJson(RowsOf(i))[n].value == TextTable(i, n)
  {
  }

  lemma ResourceTablesOf(i: Inputs, n: nat)
    requires n == 4 || n == 5
    ensures |RowsJson(RowsOf(i))| == 18 && RowsJson(RowsOf(i))[n].value == TextTable(i, n)
  {
  }

  lemma OptionalTablesOf(i: Inputs, n: nat)
    requires n == 9 || n == 12 || n == 13
    ensures |RowsJson(RowsOf(i))| == 18 && RowsJson(RowsOf(i))[n].value == TextTable(i, n)
  {
  }

  lemma SameTextTable(i: Inputs, j: Inputs, n: nat)
    requires ShowsText(n) && SortKeys(Obj(RowsJson(RowsOf(i)))) == SortKeys(Obj(RowsJson(RowsOf(j))))
    ensures TextTable(i, n) == TextTable(j, n)
  {
    hide SortKeys, RowsJson, RowsOf, TextTable, Flat, TABLES;
    var x, y := RowsJson(RowsOf(i)), RowsJson(RowsOf(j));
    NamesDiffer();
    TablesNamed(RowsOf(i));
    TablesNamed(RowsOf(j));
    if n == 9 || n == 12 || n == 13 {
      OptionalTablesOf(i, n);
      OptionalTablesOf(j, n);
    } else if n < 3 {
      AskTablesOf(i, n);
      AskTablesOf(j, n);
    } else {
      ResourceTablesOf(i, n);
      ResourceTablesOf(j, n);
    }
    TextTableIsFlat(i, n);
    TextTableIsFlat(j, n);
    SameTable(x, y, n);
  }

  /** The hash of the rows tells the texts in them. */
  lemma TablesTellTexts(i: Inputs, j: Inputs)
    requires KnownRecipe(i) == KnownRecipe(j) && SortKeys(Obj(RowsJson(RowsOf(i)))) == SortKeys(Obj(RowsJson(RowsOf(j))))
    ensures SameTexts(i, j)
  {
    hide SortKeys, RowsJson, RowsOf;
    SameTextTable(i, j, 0);
    SameTextTable(i, j, 1);
    SameTextTable(i, j, 2);
    SameTextTable(i, j, 4);
    SameTextTable(i, j, 5);
    SameTextTable(i, j, 9);
    SameTextTable(i, j, 12);
    SameTextTable(i, j, 13);
  }

  // ---- The fact set hash ----

  lemma RowsField(rows: seq<Field>, facts: seq<string>)
    ensures Field("rows", SortKeys(Obj(rows))) in SortedValues(FactSetTree(rows, facts))
    ensures forall f :: f in SortedValues(FactSetTree(rows, facts)) && f.key == "rows" ==> f.value == SortKeys(Obj(rows))
  {
    hide SortKeys, Strings;
    assert SortedValues(FactSetTree(rows, facts))[0] == Field("rows", SortKeys(Obj(rows)));
  }

  /** Equal fact set hashes are hashes of equal rows. */
  lemma FactSetHashTells(sha: Value -> string, i: Inputs, j: Inputs, c: Carried, d: Carried)
    requires PerfectHash(sha) && SameFlags(i, j)
    ensures CompiledFrom(sha, i, c).factSetHash == CompiledFrom(sha, j, d).factSetHash <==> RowsOf(i) == RowsOf(j)
  {
    hide RowsOf, RowsJson, FactStrings, SortKeys, SortedValues, Strings, SameTexts;
    var k, l := CompiledFrom(sha, i, c), CompiledFrom(sha, j, d);
    var x, y := RowsJson(RowsOf(i)), RowsJson(RowsOf(j));
    if k.factSetHash == l.factSetHash {
      RowsField(x, k.facts);
      RowsField(y, l.facts);
      CanonicalField(FactSetTree(x, k.facts), FactSetTree(y, l.facts), "rows", Obj(x), Obj(y));
      TablesTellTexts(i, j);
      RowsTellIff(i, j);
    }
  }

  /** The engine answers equal rows alike. */
  lemma SameRowsSameAnswer(i: Inputs, j: Inputs)
    requires RowsOf(i) == RowsOf(j)
    ensures EngineAnswer(i) == EngineAnswer(j)
  {
    hide EvaluateWithCozo, RowsOf, Winner, DatalogSignals;
    EvaluateWithCozoOf(i);
    EvaluateWithCozoOf(j);
  }

  /** Equal rows and commits are sealed alike, whatever else is carried along. */
  lemma SealedAlike(sha: Value -> string, i: Inputs, j: Inputs, c: Carried, d: Carried)
    requires SameFlags(i, j) && RowsOf(i) == RowsOf(j) && c.doltCommit == d.doltCommit && c.recipeIndexCommit == d.recipeIndexCommit
    ensures Sealed(sha, CompiledFrom(sha, i, c), EngineAnswer(i)) == Sealed(sha, CompiledFrom(sha, j, d), EngineAnswer(j))
  {
    hide RowsOf, RowsJson, FactStrings, FactSetTree, EngineAnswer, CandidateJson, DecisionText, ProofRules, StableHash;
    SameRowsSameAnswer(i, j);
    RowsTellIff(i, j);
    var k, l := CompiledFrom(sha, i, c), CompiledFrom(sha, j, d);
    assert ProofPayload(k, EngineAnswer(i)) == ProofPayload(l, EngineAnswer(i));
  }

  // ---- The exact conditions ----

  /** The two compiled records, the two decisions, and what of them is equal. */
  ghost predicate OrderShows(
    sha: Value -> string, ctx: Context, a: Facts, b: Facts, k: Compiled, l: Compiled, d: PolicyDecision, e: PolicyDecision)
  {
    && (k.rows == l.rows <==> RowsKept(ctx, a, b))
    && (k.doltCommit == l.doltCommit && k.recipeIndexCommit == l.recipeIndexCommit <==> CommitsKept(ctx, a, b))
    && (k == l <==> RowsKept(ctx, a, b) && CommitsKept(ctx, a, b) && TracesKept(ctx, a, b))
    && (RowsKept(ctx, a, b) ==> k.facts == l.facts && k.factSetHash == l.factSetHash)
    && (RowsKept(ctx, a, b) && CommitsKept(ctx, a, b) ==> d == e)
    && (PerfectHash(sha) ==>
          && (k.factSetHash == l.factSetHash <==> RowsKept(ctx, a, b))
          && (d.proofHash == e.proofHash <==> RowsKept(ctx, a, b) && CommitsKept(ctx, a, b)))
  }

  /**
   * Facts that are equal up to key order at every depth, compiled and decided as lists of items. If one can be read, so
   * can the other. The rows, and under a collision-free digest the fact set hash, are equal exactly when every nested
   * dictionary whose text enters a row keeps its order; the proof hash exactly when those that show the commits do too;
   * and the whole record exactly when those that are only carried along do as well.
   */
  lemma NestedReorderingIff(
    sha: Value -> string, th: Thresholds, ctx: Context, a: seq<Field>, b: seq<Field>, k: Compiled, d: PolicyDecision)
    requires WellFormed(Obj(a)) && WellFormed(Obj(b)) && SameValue(Obj(a), Obj(b))
    requires CompileItems(sha, th, ctx, a) == Ok(k) && DecideItems(sha, th, ctx, a) == Ok(d)
    ensures exists l, e :: CompileItems(sha, th, ctx, b) == Ok(l) && DecideItems(sha, th, ctx, b) == Ok(e)
                           && OrderShows(sha, ctx, AsMap(a), AsMap(b), k, l, d, e)
  {
    hide InputsIn, CarriedIn, CompiledFrom, Sealed, EngineAnswer, OrderShows, AsMap, WellFormed, SameValue, Alike;
    var i := InputsIn(ctx, a, th).value;
    NestedReads(th, ctx, a, b, i);
    var j := InputsIn(ctx, b, th).value;
    CarriedAlike(ctx, a);
    CarriedAlike(ctx, b);
    var c, e := CarriedIn(ctx, a), CarriedIn(ctx, b);
    var l := CompiledFrom(sha, j, e);
    OrderShown(sha, th, ctx, AsMap(a), AsMap(b), i, j, c, e);
    assert CompileItems(sha, th, ctx, b) == Ok(l) && DecideItems(sha, th, ctx, b) == Ok(Sealed(sha, l, EngineAnswer(j)));
  }

  lemma OrderShown(
    sha: Value -> string, th: Thresholds, ctx: Context, a: Facts, b: Facts, i: Inputs, j: Inputs, c: Carried, e: Carried)
    requires Alike(a, b) && ReadInputs(ctx.(facts := a), th) == Ok(i) && ReadInputs(ctx.(facts := b), th) == Ok(j)
    requires ReadCarried(ctx.(facts := a)) == c && ReadCarried(ctx.(facts := b)) == e
    ensures OrderShows(sha, ctx, a, b, CompiledFrom(sha, i, c), CompiledFrom(sha, j, e),
                       Sealed(sha, CompiledFrom(sha, i, c), EngineAnswer(i)), Sealed(sha, CompiledFrom(sha, j, e), EngineAnswer(j)))
  {
    hide ReadInputs, ReadCarried, Alike, RowsKept, CommitsKept, TracesKept, SameFlags, SameTexts, RowsOf, RowsJson, FactStrings,
         FactSetTree, EngineAnswer, ProofPayload, StableHash;
    CallFlagsSame(ctx, a, b, th, i, j);
    SignalsSame(ctx, a, b, th, i, j);
    BothSame(i, j);
    TextsSameIff(ctx, a, b, th, i, j);
    RowsTellIff(i, j);
    CarriedSameIff(ctx, a, b);
    RecordsSameIff(sha, i, j, c, e);
    if PerfectHash(sha) {
      FactSetHashTells(sha, i, j, c, e);
      var k, l := CompiledFrom(sha, i, c), CompiledFrom(sha, j, e);
      if Sealed(sha, k, EngineAnswer(i)).proofHash == Sealed(sha, l, EngineAnswer(j)).proofHash {
        EqualProofsEqualDecisions(sha, k, l, EngineAnswer(i), EngineAnswer(j));
      }
    }
    if RowsOf(i) == RowsOf(j) && CommitsKept(ctx, a, b) {
      SealedAlike(sha, i, j, c, e);
    }
  }

  lemma BothSame(i: Inputs, j: Inputs)
    requires SameCallFlags(i, j) && SameSignals(i, j)
    ensures SameFlags(i, j)
  {
  }

  // ---- A nested order that reaches the hash ----

  const BARE := Context("", "", "", "", "", "", "", "", "", "", "", [], "", "", "", map[])
  const XY := Obj([Field("x", Null), Field("y", Null)])
  const YX := Obj([Field("y", Null), Field("x", Null)])

  lemma ScopeOf(v: Value, th: Thresholds)
    requires Truthy(v)
    ensures ReadInputs(BARE.(facts := AsMap([Field("scope", v)])), th).Ok?
  {
    hide ViolationKinds, CredentialClass, CredentialBinding, TextOf, JudgeRows;
    var facts := AsMap([Field("scope", v)]);
    assert facts.Keys == {"scope"} && facts["scope"] == v;
    NoJudgeFacts("sess_unknown", "tool.unknown", facts);
  }

  lemma NoJudgeFacts(session: string, tool: string, facts: Facts)
    requires facts.Keys == {"scope"}
    ensures JudgeRows(session, tool, facts, JUDGE_KEYS) == Ok([])
  {
    assert JUDGE_KEYS[1..][1..][1..] == [];
    assert JudgeRows(session, tool, facts, JUDGE_KEYS[1..][1..]) == Ok([]);
    assert JudgeRows(session, tool, facts, JUDGE_KEYS[1..]) == Ok([]);
  }

  /** Two entries in either order. */
  lemma Swapped(k: string, l: string)
    requires k != l
    ensures var a, b := Obj([Field(k, Null), Field(l, Null)]), Obj([Field(l, Null), Field(k, Null)]);
      SameValue(a, b) && WellFormed(a) && WellFormed(b) && a != b
  {
    var a, b := [Field(k, Null), Field(l, Null)], [Field(l, Null), Field(k, Null)];
    assert SameField(a[0], b[1]) && SameField(a[1], b[0]);
    assert MatchedIn(a[0], b) && MatchedIn(a[1], b) && MatchesIn(a, b[0]) && MatchesIn(a, b[1]);
    assert a[0].key != b[0].key;
  }

  lemma XyIsYx()
    ensures SameValue(XY, YX) && WellFormed(XY) && WellFormed(YX) && XY != YX
  {
    hide SameValue, WellFormed;
    assert "x"[0] != "y"[0];
    Swapped("x", "y");
  }

  /** A dictionary with one entry. */
  lemma OneEntry(key: string, v: Value, w: Value)
    requires SameValue(v, w) && WellFormed(v) && WellFormed(w)
    ensures SameValue(Obj([Field(key, v)]), Obj([Field(key, w)])) && WellFormed(Obj([Field(key, v)]))
    ensures WellFormed(Obj([Field(key, w)]))
  {
    var a, b := [Field(key, v)], [Field(key, w)];
    assert SameField(a[0], b[0]);
    assert MatchedIn(a[0], b) && MatchesIn(a, b[0]);
  }

  lemma ScopeOrderLost()
    ensures !RowsKept(BARE, AsMap([Field("scope", XY)]), AsMap([Field("scope", YX)]))
  {
    hide CredentialKept, BindingKept, ColumnsKept, RecipeKnown, AsMap;
    var a, b := AsMap([Field("scope", XY)]), AsMap([Field("scope", YX)]);
    assert "scope" in a && a["scope"] == XY && "scope" in b && b["scope"] == YX;
    XyIsYx();
  }

  lemma ScopeIsRead(th: Thresholds, v: Value)
    requires Truthy(v) && WellFormed(v)
    ensures InputsIn(BARE, [Field("scope", v)], th).Ok?
  {
    hide InputsIn, ReadInputs, AsMap;
    ScopeOf(v, th);
    InputsAlike(BARE, [Field("scope", v)], th);
  }

  /** Two equal dictionaries, nested keys reordered, whose decisions have different proof hashes. */
  lemma NestedOrderCanReachHash(sha: Value -> string, th: Thresholds)
    requires PerfectHash(sha)
    ensures var a, b := [Field("scope", XY)], [Field("scope", YX)];
      && SameValue(Obj(a), Obj(b))
      && DecideItems(sha, th, BARE, a).Ok? && DecideItems(sha, th, BARE, b).Ok?
      && DecideItems(sha, th, BARE, a).value.proofHash != DecideItems(sha, th, BARE, b).value.proofHash
  {
    hide InputsIn, CarriedIn, CompiledFrom, Sealed, EngineAnswer, SameValue, AsMap, WellFormed, RowsKept, CommitsKept, TracesKept;
    var a, b := [Field("scope", XY)], [Field("scope", YX)];
    XyIsYx();
    OneEntry("scope", XY, YX);
    ScopeIsRead(th, XY);
    ScopeOrderLost();
    NestedReorderingIff(sha, th, BARE, a, b, CompileItems(sha, th, BARE, a).value, DecideItems(sha, th, BARE, a).value);
  }
}
