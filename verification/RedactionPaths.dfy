/** The paths that the redaction report writes down (platform/mcp/safe_views.py): when they identify what was cut. */
module RedactionPaths {
  import opened Text
  import opened Json
  import opened Redaction

  /** A key that a path shows as it is. */
  predicate Tame(key: string) {
    key != "" && forall c <- key :: c != '.' && c != '['
  }

  predicate TameKeys(v: Value) {
    match v
    case Arr(items) => forall i :: 0 <= i < |items| ==> TameKeys(items[i])
    case Obj(fields) => forall i :: 0 <= i < |fields| ==> Tame(fields[i].key) && TameKeys(fields[i].value)
    case _ => true
  }

  /** What a position adds to a path that is not empty. */
  function Tail(v: Value, p: Position): string
    decreases |p|, 0
  {
    if p == [] then ""
    else match v
      case Arr(items) => if p[0] < |items| then "[" + (Decimal(p[0]) + ("]" + Tail(items[p[0]], p[1..]))) else ""
      case Obj(fields) => if p[0] < |fields| then "." + (fields[p[0]].key + Rest(fields[p[0]], p[1..])) else ""
      case _ => ""
  }

  /** What follows a key. */
  function Rest(f: Field, p: Position): string
    decreases |p|, 1
  {
    if SensitiveKey(f.key) then "" else Tail(f.value, p)
  }

  lemma {:induction false} RenderIsTail(v: Value, path: string, p: Position)
    requires path != "" && Cut(v, p)
    ensures Render(v, path, p) == path + Tail(v, p)
    decreases |p|
  {
    hide SensitiveKey, SensitiveText, Decimal;
    match v
    case Arr(items) =>
      RenderIsTail(items[p[0]], ItemPath(path, p[0]), p[1..]);
      assert Tail(v, p) == "[" + (Decimal(p[0]) + ("]" + Tail(items[p[0]], p[1..])));
    case Obj(fields) =>
      if !SensitiveKey(fields[p[0]].key) {
        RenderIsTail(fields[p[0]].value, ChildPath(path, fields[p[0]].key), p[1..]);
      }
    case _ =>
  }

  /** Two words that end where the same kind of sign, or nothing, follows. */
  lemma WordPrefix(a: string, b: string, s: string, t: string, stops: string)
    requires a + s == b + t && (forall c <- a :: c !in stops) && (forall c <- b :: c !in stops)
    requires s == "" || s[0] in stops
    requires t == "" || t[0] in stops
    ensures a == b && s == t
  {
    var x, y := a + s, b + t;
    assert s != "" ==> x[|a|] == s[0];
    assert t != "" ==> y[|b|] == t[0];
    assert forall i :: 0 <= i < |a| ==> x[i] == a[i] && a[i] in a;
    assert forall i :: 0 <= i < |b| ==> y[i] == b[i] && b[i] in b;
    assert x[..|a|] == a && y[..|a|] == b;
    assert x[|a|..] == s && y[|a|..] == t;
  }

  lemma TailStarts(v: Value, p: Position)
    ensures Tail(v, p) == "" || Tail(v, p)[0] in ".["
  {
  }

  lemma RestStarts(f: Field, p: Position)
    ensures Rest(f, p) == "" || Rest(f, p)[0] in ".["
  {
    TailStarts(f.value, p);
  }

  lemma NumeralsDiffer(i: nat, j: nat)
    requires Decimal(i) == Decimal(j)
    ensures i == j
  {
    DecimalRoundTrip(i);
    DecimalRoundTrip(j);
  }

  lemma SameItem(items: seq<Value>, p: Position, q: Position)
    requires p != [] && q != [] && p[0] < |items| && q[0] < |items|
    requires Tail(Arr(items), p) == Tail(Arr(items), q)
    ensures p[0] == q[0] && Tail(items[p[0]], p[1..]) == Tail(items[p[0]], q[1..])
  {
    hide Decimal;
    var a, b := "]" + Tail(items[p[0]], p[1..]), "]" + Tail(items[q[0]], q[1..]);
    assert Tail(Arr(items), p)[1..] == Decimal(p[0]) + a && Tail(Arr(items), q)[1..] == Decimal(q[0]) + b;
    WordPrefix(Decimal(p[0]), Decimal(q[0]), a, b, "]");
    NumeralsDiffer(p[0], q[0]);
    assert a[1..] == Tail(items[p[0]], p[1..]) && b[1..] == Tail(items[q[0]], q[1..]);
  }

  lemma ItemFromTop(items: seq<Value>, p: Position)
    requires Cut(Arr(items), p)
    ensures Render(Arr(items), "", p) == Tail(Arr(items), p)
  {
    hide Decimal;
    var path := ItemPath("", p[0]);
    RenderIsTail(items[p[0]], path, p[1..]);
    assert path + Tail(items[p[0]], p[1..]) == "[" + (Decimal(p[0]) + ("]" + Tail(items[p[0]], p[1..])));
  }

  // ---- Exactly when two positions look alike ----

  /** A cut position at or below the value of a field. */
  predicate CutBelow(f: Field, p: Position) {
    if SensitiveKey(f.key) then p == [] else Cut(f.value, p)
  }

  /** Below a path that is not empty, two cut positions are written alike. */
  ghost predicate Collides(v: Value) {
    exists p, q :: p != q && Cut(v, p) && Cut(v, q) && Tail(v, p) == Tail(v, q)
  }

  /**
   * The key of `g` extends the key of `f` by a text that begins with a dot or a bracket, and that text and a cut below
   * `g` are written like a cut below `f`.
   */
  ghost predicate Meets(f: Field, g: Field) {
    && |f.key| < |g.key| && f.key == g.key[..|f.key|] && g.key[|f.key|] in ".["
    && exists p, q :: CutBelow(f, p) && CutBelow(g, q) && Rest(f, p) == g.key[|f.key|..] + Rest(g, q)
  }

  /** Somewhere in the tree, two fields of one dictionary meet. */
  ghost predicate Clashes(v: Value) {
    match v
    case Arr(items) => exists i :: 0 <= i < |items| && Clashes(items[i])
    case Obj(fields) =>
      || (exists i :: 0 <= i < |fields| && !SensitiveKey(fields[i].key) && Clashes(fields[i].value))
      || (exists i, j :: 0 <= i < |fields| && 0 <= j < |fields| && Meets(fields[i], fields[j]))
    case _ => false
  }

  lemma CutBelowField(fields: seq<Field>, p: Position)
    ensures Cut(Obj(fields), p) <==> p != [] && p[0] < |fields| && CutBelow(fields[p[0]], p[1..])
  {
    hide SensitiveKey;
    assert p != [] ==> (|p| == 1 <==> p[1..] == []);
  }

  /** Two texts of different entries that are equal make the longer key extend the shorter one. */
  lemma LongerKeyMeets(f: Field, g: Field, p: Position, q: Position)
    requires |f.key| < |g.key| && CutBelow(f, p) && CutBelow(g, q) && f.key + Rest(f, p) == g.key + Rest(g, q)
    ensures Meets(f, g)
  {
    hide CutBelow, Rest;
    RestStarts(f, p);
    var x, n := f.key + Rest(f, p), |f.key|;
    assert x[..n] == f.key && x[n..] == Rest(f, p);
    assert (g.key + Rest(g, q))[..n] == g.key[..n];
    assert (g.key + Rest(g, q))[n..] == g.key[n..] + Rest(g, q);
    assert Rest(f, p)[0] == g.key[n];
  }

  lemma MeetingTexts(f: Field, g: Field, p: Position, q: Position)
    requires |f.key| < |g.key| && f.key == g.key[..|f.key|] && Rest(f, p) == g.key[|f.key|..] + Rest(g, q)
    ensures f.key + Rest(f, p) == g.key + Rest(g, q)
  {
    hide Rest;
    assert g.key == f.key + g.key[|f.key|..];
  }

  /** Equal texts of different entries of a dictionary come from two fields that meet. */
  lemma DifferentEntries(fields: seq<Field>, i: nat, j: nat, p: Position, q: Position)
    requires i < |fields| && j < |fields| && i != j && DistinctKeys(fields)
    requires CutBelow(fields[i], p) && CutBelow(fields[j], q)
    requires fields[i].key + Rest(fields[i], p) == fields[j].key + Rest(fields[j], q)
    ensures Meets(fields[i], fields[j]) || Meets(fields[j], fields[i])
  {
    hide CutBelow, Rest, Meets;
    var f, g := fields[i], fields[j];
    assert f.key != g.key;
    assert (f.key + Rest(f, p))[..|f.key|] == f.key && (g.key + Rest(g, q))[..|g.key|] == g.key;
    if |f.key| < |g.key| {
      LongerKeyMeets(f, g, p, q);
    } else if |g.key| < |f.key| {
      LongerKeyMeets(g, f, q, p);
    }
  }

  lemma EntryTail(fields: seq<Field>, i: nat, p: Position)
    requires i < |fields|
    ensures Tail(Obj(fields), [i] + p) == "." + (fields[i].key + Rest(fields[i], p))
    ensures ([i] + p)[0] == i && ([i] + p)[1..] == p
  {
  }

  lemma ItemTail(items: seq<Value>, i: nat, p: Position)
    requires i < |items|
    ensures Tail(Arr(items), [i] + p) == "[" + (Decimal(i) + ("]" + Tail(items[i], p)))
    ensures ([i] + p)[0] == i && ([i] + p)[1..] == p
  {
  }

  /** Below a path that is not empty, two positions are written alike exactly when fields meet somewhere. */
  lemma {:induction false} CollidesIff(v: Value)
    requires WellFormed(v)
    ensures Collides(v) <==> Clashes(v)
  {
    hide SensitiveKey, SensitiveText, Decimal, Meets;
    match v
    case Arr(items) =>
      forall i | 0 <= i < |items| ensures Collides(items[i]) <==> Clashes(items[i]) {
        CollidesIff(items[i]);
      }
      ItemsCollideIff(items);
    case Obj(fields) =>
      forall i | 0 <= i < |fields| ensures Collides(fields[i].value) <==> Clashes(fields[i].value) {
        CollidesIff(fields[i].value);
      }
      FieldsCollideIff(fields);
    case _ =>
  }

  lemma ItemsCollideIff(items: seq<Value>)
    ensures Collides(Arr(items)) <==> exists i :: 0 <= i < |items| && Collides(items[i])
  {
    hide SensitiveKey, SensitiveText, Decimal, Tail;
    var v := Arr(items);
    if p, q :| p != q && Cut(v, p) && Cut(v, q) && Tail(v, p) == Tail(v, q) {
      SameItem(items, p, q);
      assert p == [p[0]] + p[1..] && q == [q[0]] + q[1..];
      assert Collides(items[p[0]]);
    }
    if i :| 0 <= i < |items| && Collides(items[i]) {
      var p, q :| p != q && Cut(items[i], p) && Cut(items[i], q) && Tail(items[i], p) == Tail(items[i], q);
      ItemTail(items, i, p);
      ItemTail(items, i, q);
      assert Cut(v, [i] + p) && Cut(v, [i] + q);
      assert [i] + p != [i] + q;
    }
  }

  /** One entry of a dictionary holds a collision, or two entries meet. */
  ghost predicate EntriesCollide(fields: seq<Field>) {
    || (exists i :: 0 <= i < |fields| && !SensitiveKey(fields[i].key) && Collides(fields[i].value))
    || (exists i, j :: 0 <= i < |fields| && 0 <= j < |fields| && Meets(fields[i], fields[j]))
  }

  lemma FieldsCollideIff(fields: seq<Field>)
    requires DistinctKeys(fields)
    ensures Collides(Obj(fields)) <==> EntriesCollide(fields)
  {
    hide EntriesCollide, Tail, Cut, Rest;
    var v := Obj(fields);
    if p, q :| p != q && Cut(v, p) && Cut(v, q) && Tail(v, p) == Tail(v, q) {
      CutBelowField(fields, p);
      CutBelowField(fields, q);
      assert p == [p[0]] + p[1..] && q == [q[0]] + q[1..];
      EntryTail(fields, p[0], p[1..]);
      EntryTail(fields, q[0], q[1..]);
      assert Tail(v, p)[1..] == fields[p[0]].key + Rest(fields[p[0]], p[1..]);
      assert Tail(v, q)[1..] == fields[q[0]].key + Rest(fields[q[0]], q[1..]);
      EntriesShow(fields, p, q);
    }
    if EntriesCollide(fields) {
      var p, q := EntriesShown(fields);
      EntryTail(fields, p[0], p[1..]);
      EntryTail(fields, q[0], q[1..]);
      assert p == [p[0]] + p[1..] && q == [q[0]] + q[1..];
    }
  }

  lemma EntriesShow(fields: seq<Field>, p: Position, q: Position)
    requires DistinctKeys(fields) && p != q && Cut(Obj(fields), p) && Cut(Obj(fields), q)
    requires fields[p[0]].key + Rest(fields[p[0]], p[1..]) == fields[q[0]].key + Rest(fields[q[0]], q[1..])
    ensures EntriesCollide(fields)
  {
    hide SensitiveKey, Cut, Meets, Tail;
    CutBelowField(fields, p);
    CutBelowField(fields, q);
    assert p == [p[0]] + p[1..] && q == [q[0]] + q[1..];
    if p[0] == q[0] {
      var f := fields[p[0]];
      assert (f.key + Rest(f, p[1..]))[|f.key|..] == Rest(f, p[1..]) && (f.key + Rest(f, q[1..]))[|f.key|..] == Rest(f, q[1..]);
      assert Collides(f.value);
    } else {
      DifferentEntries(fields, p[0], q[0], p[1..], q[1..]);
    }
  }

  lemma EntriesShown(fields: seq<Field>) returns (p: Position, q: Position)
    requires EntriesCollide(fields)
    ensures p != [] && q != [] && p[0] < |fields| && q[0] < |fields|
    ensures p != q && Cut(Obj(fields), p) && Cut(Obj(fields), q)
    ensures fields[p[0]].key + Rest(fields[p[0]], p[1..]) == fields[q[0]].key + Rest(fields[q[0]], q[1..])
  {
    hide SensitiveKey, Cut, Tail;
    if i :| 0 <= i < |fields| && !SensitiveKey(fields[i].key) && Collides(fields[i].value) {
      var x, y :| x != y && Cut(fields[i].value, x) && Cut(fields[i].value, y) && Tail(fields[i].value, x) == Tail(fields[i].value, y);
      p, q := [i] + x, [i] + y;
      assert p[1..] == x && q[1..] == y;
    } else {
      var i, j :| 0 <= i < |fields| && 0 <= j < |fields| && Meets(fields[i], fields[j]);
      var x, y :| CutBelow(fields[i], x) && CutBelow(fields[j], y) && Rest(fields[i], x) == fields[j].key[|fields[i].key|..] + Rest(fields[j], y);
      MeetingTexts(fields[i], fields[j], x, y);
      p, q := [i] + x, [j] + y;
      assert p[1..] == x && q[1..] == y && p[0] == i && q[0] == j;
    }
    CutBelowField(fields, p);
    CutBelowField(fields, q);
  }

  // ---- From the top ----

  /** Two cut positions are reported by one path. */
  ghost predicate ReportCollides(v: Value, path: string) {
    exists p, q :: p != q && Cut(v, p) && Cut(v, q) && Render(v, path, p) == Render(v, path, q)
  }

  lemma EmptyKeyIsHarmless()
    ensures !SensitiveKey("")
  {
  }

  /** What the report of a whole value says about an entry: an empty key leaves the path empty. */
  function Head(f: Field, p: Position): string {
    if f.key == "" then Render(f.value, "", p) else f.key + Rest(f, p)
  }

  lemma TopEntry(fields: seq<Field>, i: nat, p: Position)
    requires i < |fields| && CutBelow(fields[i], p)
    ensures Cut(Obj(fields), [i] + p) && Render(Obj(fields), "", [i] + p) == Head(fields[i], p)
  {
    var f, q := fields[i], [i] + p;
    assert q[0] == i && q[1..] == p;
    EmptyKeyIsHarmless();
    if SensitiveKey(f.key) {
      assert f.key + "" == f.key;
    } else if f.key != "" {
      RenderIsTail(f.value, f.key, p);
    }
  }

  /** Under an empty key the path is still empty, so a cut there may be written like one under another key. */
  ghost predicate TopMeets(f: Field, g: Field) {
    f.key == "" && g.key != "" && exists p, q :: CutBelow(f, p) && CutBelow(g, q) && Head(f, p) == Head(g, q)
  }

  /** Two fields of one dictionary meet, with the chain of empty keys at the top treated apart. */
  ghost predicate TopClashes(v: Value) {
    match v
    case Arr(_) => Clashes(v)
    case Obj(fields) =>
      || (exists i :: 0 <= i < |fields| && fields[i].key == "" && TopClashes(fields[i].value))
      || (exists i :: 0 <= i < |fields| && fields[i].key != "" && !SensitiveKey(fields[i].key) && Clashes(fields[i].value))
      || (exists i, j :: 0 <= i < |fields| && 0 <= j < |fields| && fields[i].key != "" && Meets(fields[i], fields[j]))
      || (exists i, j :: 0 <= i < |fields| && 0 <= j < |fields| && TopMeets(fields[i], fields[j]))
    case _ => false
  }

  /**
   * The report names two cut positions by one path if and only if, in some dictionary of the value, one key extends
   * another by a text that begins with a dot or a bracket and that text completes a cut below the longer key to one
   * below the shorter. Only where the path is empty, empty keys at the top add to that.
   */
  lemma ReportCollidesIff(v: Value, path: string)
    requires WellFormed(v)
    ensures ReportCollides(v, path) <==> if path != "" then Clashes(v) else TopClashes(v)
  {
    hide SensitiveKey, SensitiveText, Clashes, TopClashes;
    if path != "" {
      CollidesIff(v);
      BelowAPath(v, path);
    } else {
      TopCollidesIff(v);
    }
  }

  lemma BelowAPath(v: Value, path: string)
    requires path != ""
    ensures ReportCollides(v, path) <==> Collides(v)
  {
    hide SensitiveKey, SensitiveText, Cut, Tail, Render;
    if p, q :| p != q && Cut(v, p) && Cut(v, q) && Render(v, path, p) == Render(v, path, q) {
      RenderIsTail(v, path, p);
      RenderIsTail(v, path, q);
      assert Tail(v, p) == Render(v, path, p)[|path|..] && Tail(v, q) == Render(v, path, q)[|path|..];
    }
    if p, q :| p != q && Cut(v, p) && Cut(v, q) && Tail(v, p) == Tail(v, q) {
      RenderIsTail(v, path, p);
      RenderIsTail(v, path, q);
    }
  }

  lemma {:induction false} TopCollidesIff(v: Value)
    requires WellFormed(v)
    ensures ReportCollides(v, "") <==> TopClashes(v)
  {
    hide SensitiveKey, SensitiveText, Meets, TopMeets, Clashes, Render, Tail, Collides;
    match v
    case Arr(items) =>
      CollidesIff(v);
      TopItems(items);
    case Obj(fields) =>
      forall i | 0 <= i < |fields|
        ensures ReportCollides(fields[i].value, "") <==> TopClashes(fields[i].value)
        ensures Collides(fields[i].value) <==> Clashes(fields[i].value)
      {
        TopCollidesIff(fields[i].value);
        CollidesIff(fields[i].value);
      }
      TopFieldsIff(fields);
    case _ =>
  }

  lemma TopItems(items: seq<Value>)
    ensures ReportCollides(Arr(items), "") <==> Collides(Arr(items))
  {
    hide SensitiveKey, SensitiveText, Cut, Tail, Render;
    forall p | Cut(Arr(items), p) ensures Render(Arr(items), "", p) == Tail(Arr(items), p) {
      ItemFromTop(items, p);
    }
  }

  ghost predicate TopEntriesCollide(fields: seq<Field>) {
    || (exists i :: 0 <= i < |fields| && fields[i].key == "" && ReportCollides(fields[i].value, ""))
    || (exists i :: 0 <= i < |fields| && fields[i].key != "" && !SensitiveKey(fields[i].key) && Collides(fields[i].value))
    || (exists i, j :: 0 <= i < |fields| && 0 <= j < |fields| && fields[i].key != "" && Meets(fields[i], fields[j]))
    || (exists i, j :: 0 <= i < |fields| && 0 <= j < |fields| && TopMeets(fields[i], fields[j]))
  }

  lemma TopFieldsIff(fields: seq<Field>)
    requires DistinctKeys(fields)
    ensures ReportCollides(Obj(fields), "") <==> TopEntriesCollide(fields)
  {
    hide TopEntriesCollide, Cut, Render, Head;
    var v := Obj(fields);
    if p, q :| p != q && Cut(v, p) && Cut(v, q) && Render(v, "", p) == Render(v, "", q) {
      CutBelowField(fields, p);
      CutBelowField(fields, q);
      assert p == [p[0]] + p[1..] && q == [q[0]] + q[1..];
      TopEntry(fields, p[0], p[1..]);
      TopEntry(fields, q[0], q[1..]);
      TopEntriesShow(fields, p[0], q[0], p[1..], q[1..]);
    }
    if TopEntriesCollide(fields) {
      var i, j, x, y := TopEntriesShown(fields);
      TopEntry(fields, i, x);
      TopEntry(fields, j, y);
      assert ([i] + x)[0] == i && ([i] + x)[1..] == x && ([j] + y)[0] == j && ([j] + y)[1..] == y;
    }
  }

  lemma TopEntriesShow(fields: seq<Field>, i: nat, j: nat, p: Position, q: Position)
    requires DistinctKeys(fields) && i < |fields| && j < |fields| && (i == j ==> p != q)
    requires CutBelow(fields[i], p) && CutBelow(fields[j], q) && Head(fields[i], p) == Head(fields[j], q)
    ensures TopEntriesCollide(fields)
  {
    hide SensitiveKey, Cut, Meets, Render, Tail;
    var f, g := fields[i], fields[j];
    EmptyKeyIsHarmless();
    if i == j && f.key == "" {
      assert ReportCollides(f.value, "");
    } else if i == j {
      assert (f.key + Rest(f, p))[|f.key|..] == Rest(f, p) && (f.key + Rest(f, q))[|f.key|..] == Rest(f, q);
      assert Collides(f.value);
    } else if f.key == "" {
      assert g.key != "";
      assert TopMeets(f, g);
    } else if g.key == "" {
      assert TopMeets(g, f);
    } else {
      DifferentEntries(fields, i, j, p, q);
    }
  }

  lemma TopEntriesShown(fields: seq<Field>) returns (i: nat, j: nat, p: Position, q: Position)
    requires TopEntriesCollide(fields)
    ensures i < |fields| && j < |fields| && (i == j ==> p != q)
    ensures CutBelow(fields[i], p) && CutBelow(fields[j], q) && Head(fields[i], p) == Head(fields[j], q)
  {
    hide SensitiveKey, Cut, Render, Tail;
    EmptyKeyIsHarmless();
    if k :| 0 <= k < |fields| && fields[k].key == "" && ReportCollides(fields[k].value, "") {
      i, j := k, k;
      p, q :| p != q && Cut(fields[k].value, p) && Cut(fields[k].value, q) && Render(fields[k].value, "", p) == Render(fields[k].value, "", q);
    } else if k :| 0 <= k < |fields| && fields[k].key != "" && !SensitiveKey(fields[k].key) && Collides(fields[k].value) {
      i, j := k, k;
      p, q :| p != q && Cut(fields[k].value, p) && Cut(fields[k].value, q) && Tail(fields[k].value, p) == Tail(fields[k].value, q);
    } else if k, l :| 0 <= k < |fields| && 0 <= l < |fields| && fields[k].key != "" && Meets(fields[k], fields[l]) {
      i, j := k, l;
      p, q :| CutBelow(fields[k], p) && CutBelow(fields[l], q) && Rest(fields[k], p) == fields[l].key[|fields[k].key|..] + Rest(fields[l], q);
      MeetingTexts(fields[k], fields[l], p, q);
    } else {
      var k, l :| 0 <= k < |fields| && 0 <= l < |fields| && TopMeets(fields[k], fields[l]);
      i, j := k, l;
      p, q :| CutBelow(fields[k], p) && CutBelow(fields[l], q) && Head(fields[k], p) == Head(fields[l], q);
    }
  }

  lemma {:induction false} TameNeverClashes(v: Value)
    requires TameKeys(v)
    ensures !Clashes(v) && !TopClashes(v)
  {
    hide SensitiveKey;
    match v
    case Arr(items) =>
      forall i | 0 <= i < |items| ensures !Clashes(items[i]) {
        TameNeverClashes(items[i]);
      }
    case Obj(fields) =>
      forall i | 0 <= i < |fields| ensures !Clashes(fields[i].value) && !TopClashes(fields[i].value) {
        TameNeverClashes(fields[i].value);
      }
      forall i, j | 0 <= i < |fields| && 0 <= j < |fields| ensures !Meets(fields[i], fields[j]) {
        assert forall k :: 0 <= k < |fields[j].key| ==> fields[j].key[k] in fields[j].key;
      }
    case _ =>
  }

  /**
   * Where every key is nonempty and free of dots and brackets, the report names every cut position by a path of its own,
   * whatever path it starts from.
   */
  lemma ReportIdentifies(v: Value, path: string, p: Position, q: Position)
    requires WellFormed(v) && TameKeys(v) && Cut(v, p) && Cut(v, q) && Render(v, path, p) == Render(v, path, q)
    ensures p == q
  {
    hide Render, Cut, Clashes, TopClashes, TameKeys;
    TameNeverClashes(v);
    ReportCollidesIff(v, path);
  }

  const DOTTED := Obj([Field("a.b", Str("op://")), Field("a", Obj([Field("b", Str("op://"))]))])

  lemma ReferenceIsSensitive()
    ensures SensitiveText("op://")
  {
    assert Lower("op://") == "op://";
    assert OccursAt("op://", "op://", 0);
  }

  lemma ShortKeysAreHarmless(key: string)
    requires |key| <= 3
    ensures !SensitiveKey(key)
  {
  }

  /** A dot in a key can make two cut positions look alike. */
  lemma DottedKeysCollide()
    ensures Cut(DOTTED, [0]) && Cut(DOTTED, [1, 0]) && Render(DOTTED, "", [0]) == "a.b" == Render(DOTTED, "", [1, 0])
  {
    hide SensitiveText, SensitiveKey;
    ReferenceIsSensitive();
    ShortKeysAreHarmless("a.b");
    ShortKeysAreHarmless("a");
    ShortKeysAreHarmless("b");
    assert [1, 0][1..] == [0];
  }

  // ---- What a path looks like ----

  /** A secret in a list in a dictionary: the keys with dots between them, the index in brackets. */
  lemma PathOfItem(key: string, inner: string, items: seq<Value>, i: nat, path: string)
    requires !SensitiveKey(key) && !SensitiveKey(inner) && key != "" && i < |items|
    ensures Render(Obj([Field(key, Obj([Field(inner, Arr(items))]))]), "", [0, 0, i])
         == Render(items[i], key + "." + inner + "[" + Decimal(i) + "]", [])
         == key + "." + inner + "[" + Decimal(i) + "]"
    ensures path != "" ==> Render(Obj([Field(key, Arr(items))]), path, [0, i]) == path + "." + key + "[" + Decimal(i) + "]"
    ensures Render(Str("op://"), "", []) == "value"
  {
    hide SensitiveKey;
    assert [0, 0, i][1..] == [0, i] && [0, i][1..] == [i] && [i][1..] == [];
    var inside := Obj([Field(inner, Arr(items))]);
    assert Render(Arr(items), key + "." + inner, [i]) == Render(items[i], key + "." + inner + "[" + Decimal(i) + "]", []);
    assert Render(inside, key, [0, i]) == Render(Arr(items), key + "." + inner, [i]);
    if path != "" {
      assert Render(Arr(items), path + "." + key, [i]) == path + "." + key + "[" + Decimal(i) + "]";
    }
  }

  /** A key that names a secret ends the path, whatever stands below it. */
  lemma PathOfSecret(key: string, v: Value, path: string)
    requires SensitiveKey(key)
    ensures Render(Obj([Field(key, v)]), path, [0]) == if path == "" then key else path + "." + key
  {
    hide SensitiveKey;
  }
}
