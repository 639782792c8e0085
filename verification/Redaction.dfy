/**
 * Recursive redaction. The audit store (platform/dolt_store.py) and the runtime (platform/runtime_execution.py)
 * each implement it; the runtime also reports where it redacted.
 */
module Redaction {
  import opened Text
  import opened Json
  import opened Wrappers

  const REDACTED := "[redacted]"

  /** Marker list of the audit store. */
  const STORE_MARKERS: seq<string> :=
    ["authorization", "bearer", "client_secret", "credential", "password", "private_key", "secret", "token"]

  /** Marker list of the runtime. */
  const RUNTIME_MARKERS: seq<string> :=
    ["authorization", "bearer", "client_secret", "credential", "password", "private_key", "secret", "token"]

  predicate HasMarker(key: string, markers: seq<string>) {
    exists i :: 0 <= i < |markers| && Contains(Lower(key), markers[i])
  }

  predicate SensitiveKey(key: string) {
    HasMarker(key, STORE_MARKERS)
  }

  predicate SensitiveText(s: string) {
    Contains(Lower(s), "authorization: bearer ") || Contains(Lower(s), "op://")
  }

  lemma RedactedIsNotSensitive()
    ensures !SensitiveText(REDACTED)
  {
    assert Lower(REDACTED) == REDACTED;
    MissingLetter(REDACTED, "authorization: bearer ", 'u');
    MissingLetter(REDACTED, "op://", 'o');
  }

  // ---- What redaction means ----

  /** The tree with every sensitive position blanked. */
  function Scrubbed(v: Value): (r: Value)
    decreases v, 1
  {
    match v
    case Str(s) => if SensitiveText(s) then Str(REDACTED) else v
    case Arr(items) => Arr(seq(|items|, i requires 0 <= i < |items| => Scrubbed(items[i])))
    case Obj(fields) => Obj(seq(|fields|, i requires 0 <= i < |fields| => ScrubbedField(fields[i])))
    case _ => v
  }

  function ScrubbedField(f: Field): (r: Field)
    decreases f, 0
    ensures r.key == f.key
  {
    Field(f.key, if SensitiveKey(f.key) then Str(REDACTED) else Scrubbed(f.value))
  }

  /** No secret is visible: sensitive keys hold the blank, and no other string is sensitive. */
  predicate NoSecret(v: Value) {
    match v
    case Str(s) => !SensitiveText(s)
    case Arr(items) => forall i :: 0 <= i < |items| ==> NoSecret(items[i])
    case Obj(fields) =>
      forall i :: 0 <= i < |fields| ==>
        if SensitiveKey(fields[i].key) then fields[i].value == Str(REDACTED) else NoSecret(fields[i].value)
    case _ => true
  }

  /** The names of secrets, in any case of letters. */
  ghost predicate NamesSecret(key: string) {
    exists m :: m in {"authorization", "bearer", "client_secret", "credential", "password", "private_key", "secret", "token"}
                && Contains(Lower(key), m)
  }

  /** An authorization header or a reference into the password manager, in any case of letters. */
  predicate TextIsSecret(s: string) {
    Contains(Lower(s), "authorization: bearer ") || Contains(Lower(s), "op://")
  }

  /** What redaction has to be: blanks at the names and texts of secrets, and the same tree everywhere else. */
  ghost predicate Blanks(v: Value, r: Value) {
    match v
    case Str(s) => r == Str(if TextIsSecret(s) then "[redacted]" else s)
    case Arr(items) => r.Arr? && |r.items| == |items| && forall i :: 0 <= i < |items| ==> Blanks(items[i], r.items[i])
    case Obj(fields) =>
      && r.Obj? && |r.fields| == |fields|
      && forall i :: 0 <= i < |fields| ==>
           && r.fields[i].key == fields[i].key
           && if NamesSecret(fields[i].key) then r.fields[i].value == Str("[redacted]")
              else Blanks(fields[i].value, r.fields[i].value)
    case _ => r == v
  }

  lemma NamesSecretIff(key: string)
    ensures NamesSecret(key) <==> SensitiveKey(key)
  {
    hide Contains;
    var m := STORE_MARKERS;
    assert m[0] == "authorization" && m[1] == "bearer" && m[2] == "client_secret" && m[3] == "credential";
    assert m[4] == "password" && m[5] == "private_key" && m[6] == "secret" && m[7] == "token" && |m| == 8;
  }

  /** The redacted tree is the one tree that blanks exactly the secrets. */
  lemma {:induction false} ScrubbedBlanks(v: Value, r: Value)
    ensures Blanks(v, r) <==> r == Scrubbed(v)
  {
    hide NamesSecret, SensitiveKey;
    match v
    case Arr(items) =>
      if r.Arr? && |r.items| == |items| {
        forall i | 0 <= i < |items| ensures Blanks(items[i], r.items[i]) <==> r.items[i] == Scrubbed(items[i]) {
          ScrubbedBlanks(items[i], r.items[i]);
        }
      }
    case Obj(fields) =>
      if r.Obj? && |r.fields| == |fields| {
        forall i | 0 <= i < |fields|
          ensures NamesSecret(fields[i].key) <==> SensitiveKey(fields[i].key)
          ensures Blanks(fields[i].value, r.fields[i].value) <==> r.fields[i].value == Scrubbed(fields[i].value)
        {
          NamesSecretIff(fields[i].key);
          ScrubbedBlanks(fields[i].value, r.fields[i].value);
        }
      }
    case _ =>
  }

  /** The case of letters does not matter: keys with one lower-case form are blanked alike. */
  lemma CaseDoesNotMatter(a: string, b: string, v: Value)
    requires Lower(a) == Lower(b)
    ensures Scrubbed(Obj([Field(a, v)])).fields[0].value == Scrubbed(Obj([Field(b, v)])).fields[0].value
  {
    NamesSecretIff(a);
    NamesSecretIff(b);
    hide SensitiveKey, Contains;
  }

  /** Redaction leaves no secret behind. */
  lemma {:induction false} ScrubbedHasNoSecret(v: Value)
    ensures NoSecret(Scrubbed(v))
  {
    match v
    case Str(_) => RedactedIsNotSensitive();
    case Arr(items) =>
      forall i | 0 <= i < |items| ensures NoSecret(Scrubbed(items[i])) { ScrubbedHasNoSecret(items[i]); }
    case Obj(fields) =>
      forall i | 0 <= i < |fields| ensures NoSecret(Scrubbed(fields[i].value)) { ScrubbedHasNoSecret(fields[i].value); }
    case _ =>
  }

  /** Redaction changes a tree exactly when a secret is visible in it. */
  lemma {:induction false} ScrubbedChangesOnlySecrets(v: Value)
    ensures Scrubbed(v) == v <==> NoSecret(v)
  {
    match v
    case Str(s) => RedactedIsNotSensitive();
    case Arr(items) =>
      var r := Scrubbed(v).items;
      forall i | 0 <= i < |items| ensures r[i] == items[i] <==> NoSecret(items[i]) { ScrubbedChangesOnlySecrets(items[i]); }
      assert r == items <==> forall i :: 0 <= i < |items| ==> r[i] == items[i];
    case Obj(fields) =>
      var r := Scrubbed(v).fields;
      forall i | 0 <= i < |fields|
        ensures r[i] == fields[i] <==> if SensitiveKey(fields[i].key) then fields[i].value == Str(REDACTED) else NoSecret(fields[i].value)
      {
        ScrubbedChangesOnlySecrets(fields[i].value);
        assert r[i] == ScrubbedField(fields[i]) && fields[i] == Field(fields[i].key, fields[i].value);
      }
      assert r == fields <==> forall i :: 0 <= i < |fields| ==> r[i] == fields[i];
    case _ =>
  }

  /** Redacting twice is redacting once. */
  lemma {:induction false} ScrubbedIdempotent(v: Value)
    ensures Scrubbed(Scrubbed(v)) == Scrubbed(v)
  {
    ScrubbedHasNoSecret(v);
    ScrubbedChangesOnlySecrets(Scrubbed(v));
  }

  /** Redaction keeps dictionaries well formed, and keeps every number stored under a harmless key. */
  lemma {:induction false} ScrubbedWellFormed(v: Value)
    requires WellFormed(v)
    ensures WellFormed(Scrubbed(v))
  {
    match v
    case Arr(items) =>
      forall i | 0 <= i < |items| ensures WellFormed(Scrubbed(items[i])) { ScrubbedWellFormed(items[i]); }
    case Obj(fields) =>
      forall i | 0 <= i < |fields| ensures WellFormed(Scrubbed(fields[i].value)) { ScrubbedWellFormed(fields[i].value); }
    case _ =>
  }

  // ---- Positions ----

  /** A position is the list of child indices that leads to a node. */
  type Position = seq<nat>

  /** Whether a node of `v` is blanked as a whole: a sensitive string, or whatever sits under a sensitive key. */
  predicate Cut(v: Value, p: Position)
    decreases |p|
  {
    if p == [] then v.Str? && SensitiveText(v.s)
    else match v
      case Arr(items) => p[0] < |items| && Cut(items[p[0]], p[1..])
      case Obj(fields) =>
        && p[0] < |fields|
        && (if SensitiveKey(fields[p[0]].key) then |p| == 1 else Cut(fields[p[0]].value, p[1..]))
      case _ => false
  }

  function Lookup(v: Value, p: Position): (r: Option<Value>)
    decreases |p|
  {
    if p == [] then Some(v)
    else match v
      case Arr(items) => if p[0] < |items| then Lookup(items[p[0]], p[1..]) else None
      case Obj(fields) => if p[0] < |fields| then Lookup(fields[p[0]].value, p[1..]) else None
      case _ => None
  }

  /** Every cut position holds the blank afterwards. */
  lemma {:induction false} CutIsBlanked(v: Value, p: Position)
    requires Cut(v, p)
    ensures Lookup(Scrubbed(v), p) == Some(Str(REDACTED))
    decreases |p|
  {
    if p != [] {
      match v
      case Arr(items) => CutIsBlanked(items[p[0]], p[1..]);
      case Obj(fields) =>
        if !SensitiveKey(fields[p[0]].key) {
          CutIsBlanked(fields[p[0]].value, p[1..]);
        }
    }
  }

  /** A node with no cut at it, above it or below it keeps its value; `Lookup` finds the same nodes outside the cuts. */
  lemma {:induction false} UncutIsKept(v: Value, p: Position)
    requires forall k :: 0 <= k <= |p| ==> !Cut(v, p[..k])
    ensures Lookup(v, p).Some? <==> Lookup(Scrubbed(v), p).Some?
    ensures Lookup(v, p).Some? ==> Lookup(Scrubbed(v), p) == Some(Scrubbed(Lookup(v, p).value))
    decreases |p|
  {
    assert !Cut(v, p[..0]);
    if p != [] {
      var q := p[1..];
      match v
      case Arr(items) =>
        if p[0] < |items| {
          forall k | 0 <= k <= |q| ensures !Cut(items[p[0]], q[..k]) {
            assert p[..k + 1][1..] == q[..k];
            assert !Cut(v, p[..k + 1]);
          }
          UncutIsKept(items[p[0]], q);
        }
      case Obj(fields) =>
        if p[0] < |fields| {
          assert !Cut(v, p[..1]);
          forall k | 0 <= k <= |q| ensures !Cut(fields[p[0]].value, q[..k]) {
            assert p[..k + 1][1..] == q[..k];
            assert !Cut(v, p[..k + 1]);
          }
          UncutIsKept(fields[p[0]].value, q);
        }
      case _ =>
    }
  }

  // ---- The report ----

  function Below(i: nat, ps: seq<Position>): (r: seq<Position>)
    ensures |r| == |ps|
  {
    seq(|ps|, k requires 0 <= k < |ps| => [i] + ps[k])
  }

  /** All cut positions, in traversal order. */
  function Cuts(v: Value): (r: seq<Position>)
    decreases v, 1
  {
    match v
    case Str(s) => if SensitiveText(s) then [[]] else []
    case Arr(items) => ItemCuts(items)
    case Obj(fields) => FieldCuts(fields)
    case _ => []
  }

  function ItemCuts(items: seq<Value>): (r: seq<Position>)
    decreases items, 0
  {
    if items == [] then []
    else
      var i := |items| - 1;
      ItemCuts(items[..i]) + Below(i, Cuts(items[i]))
  }

  function FieldCuts(fields: seq<Field>): (r: seq<Position>)
    decreases fields, 0
  {
    if fields == [] then []
    else
      var i := |fields| - 1;
      FieldCuts(fields[..i]) + Below(i, if SensitiveKey(fields[i].key) then [[]] else Cuts(fields[i].value))
  }

  /** `f"{path}.{key}" if path else str(key)` */
  function ChildPath(path: string, key: string): string {
    if path != "" then path + "." + key else key
  }

  /** `f"{path}[{idx}]"` */
  function ItemPath(path: string, i: nat): string {
    path + "[" + Decimal(i) + "]"
  }

  /** How the runtime writes a cut position down. */
  function Render(v: Value, path: string, p: Position): string
    decreases |p|
  {
    if p == [] then (if path != "" then path else "value")
    else match v
      case Arr(items) => if p[0] < |items| then Render(items[p[0]], ItemPath(path, p[0]), p[1..]) else ""
      case Obj(fields) =>
        if p[0] < |fields| then
          var child := ChildPath(path, fields[p[0]].key);
          if SensitiveKey(fields[p[0]].key) then child else Render(fields[p[0]].value, child, p[1..])
        else ""
      case _ => ""
  }

  function RenderAll(v: Value, path: string, ps: seq<Position>): (r: seq<string>)
    ensures |r| == |ps|
  {
    seq(|ps|, k requires 0 <= k < |ps| => Render(v, path, ps[k]))
  }

  /** The cut positions that start below one of the first `n` children. */
  predicate Within(p: Position, n: nat) {
    p != [] && p[0] < n
  }

  /** Document order on positions. */
  predicate Before(p: Position, q: Position)
    decreases |p|
  {
    q != [] && (p == [] || p[0] < q[0] || (p[0] == q[0] && Before(p[1..], q[1..])))
  }

  predicate InOrder(ps: seq<Position>) {
    forall i, j :: 0 <= i < j < |ps| ==> Before(ps[i], ps[j])
  }

  lemma BelowMembers(i: nat, ps: seq<Position>)
    ensures forall p :: p in Below(i, ps) <==> p != [] && p[0] == i && p[1..] in ps
    ensures InOrder(ps) ==> InOrder(Below(i, ps))
  {
    var r := Below(i, ps);
    forall p ensures p in r <==> p != [] && p[0] == i && p[1..] in ps {
      if p in r {
        var k :| 0 <= k < |r| && r[k] == p;
        assert p[1..] == ps[k];
      }
      if p != [] && p[0] == i && p[1..] in ps {
        var k :| 0 <= k < |ps| && ps[k] == p[1..];
        assert r[k] == [i] + p[1..] == p;
      }
    }
    forall a, b | 0 <= a < b < |r| && InOrder(ps) ensures Before(r[a], r[b]) {
      assert r[a][1..] == ps[a] && r[b][1..] == ps[b];
    }
  }

  /** Lists over earlier and later children join in order. */
  lemma JoinInOrder(a: seq<Position>, b: seq<Position>, n: nat)
    requires InOrder(a) && InOrder(b)
    requires forall p :: p in a ==> Within(p, n)
    requires forall p :: p in b ==> p != [] && p[0] == n
    ensures InOrder(a + b)
  {
    var r := a + b;
    forall i, j | 0 <= i < j < |r| ensures Before(r[i], r[j]) {
      if i < |a| <= j {
        assert r[i] in a && r[j] in b;
      }
    }
  }

  /** The report lists every cut position once, in traversal order, and nothing else. */
  lemma {:induction false} CutsAreExact(v: Value)
    ensures forall p :: p in Cuts(v) <==> Cut(v, p)
    ensures InOrder(Cuts(v))
    decreases v, 1
  {
    match v
    case Arr(items) => ItemCutsAreExact(items, items);
    case Obj(fields) => FieldCutsAreExact(fields, fields);
    case _ =>
  }

  lemma {:induction false} ItemCutsAreExact(items: seq<Value>, all: seq<Value>)
    requires items <= all
    ensures forall p :: p in ItemCuts(items) <==> Within(p, |items|) && Cut(Arr(all), p)
    ensures InOrder(ItemCuts(items))
    decreases items, 0
  {
    if items != [] {
      var i := |items| - 1;
      ItemCutsAreExact(items[..i], all);
      CutsAreExact(items[i]);
      BelowMembers(i, Cuts(items[i]));
      JoinInOrder(ItemCuts(items[..i]), Below(i, Cuts(items[i])), i);
    }
  }

  lemma {:induction false} FieldCutsAreExact(fields: seq<Field>, all: seq<Field>)
    requires fields <= all
    ensures forall p :: p in FieldCuts(fields) <==> Within(p, |fields|) && Cut(Obj(all), p)
    ensures InOrder(FieldCuts(fields))
    decreases fields, 0
  {
    if fields != [] {
      var i := |fields| - 1;
      var cuts := if SensitiveKey(fields[i].key) then [[]] else Cuts(fields[i].value);
      FieldCutsAreExact(fields[..i], all);
      CutsAreExact(fields[i].value);
      BelowMembers(i, cuts);
      JoinInOrder(FieldCuts(fields[..i]), Below(i, cuts), i);
      forall p ensures p in FieldCuts(fields) <==> Within(p, |fields|) && Cut(Obj(all), p) {
        if p != [] && p[0] == i {
          assert p[1..] in cuts <==> Cut(Obj(all), p) by {
            if SensitiveKey(fields[i].key) {
              assert p[1..] == [] <==> |p| == 1;
            }
          }
        }
      }
    }
  }

  // ---- The two implementations ----

  /** `_scrub_sensitive` of the audit store. */
  method ScrubSensitive(v: Value) returns (r: Value)
    ensures r == Scrubbed(v)
    decreases v
  {
    match v
    case Obj(fields) =>
      var cleaned: seq<Field> := [];
      for i := 0 to |fields|
        invariant |cleaned| == i
        invariant forall k :: 0 <= k < i ==> cleaned[k] == ScrubbedField(fields[k])
      {
        var f := fields[i];
        if HasMarker(f.key, STORE_MARKERS) {
          cleaned := cleaned + [Field(f.key, Str(REDACTED))];
        } else {
          var nested := ScrubSensitive(f.value);
          cleaned := cleaned + [Field(f.key, nested)];
        }
      }
      r := Obj(cleaned);
    case Arr(items) =>
      var cleaned: seq<Value> := [];
      for i := 0 to |items|
        invariant |cleaned| == i
        invariant forall k :: 0 <= k < i ==> cleaned[k] == Scrubbed(items[k])
      {
        var item := ScrubSensitive(items[i]);
        cleaned := cleaned + [item];
      }
      r := Arr(cleaned);
    case Str(s) =>
      r := if Contains(Lower(s), "authorization: bearer ") || Contains(Lower(s), "op://") then Str(REDACTED) else v;
    case _ =>
      r := v;
  }

  /** `redact_text` (platform/mcp/safe_views.py). */
  function RedactText(s: string): string {
    if Contains(Lower(s), "authorization: bearer ") || Contains(Lower(s), "op://") then REDACTED else s
  }

  lemma RedactTextReportsIffSensitive(s: string)
    ensures RedactText(s) != s <==> SensitiveText(s)
  {
    RedactedIsNotSensitive();
  }

  lemma RenderBelow(v: Value, path: string, n: nat, cuts: seq<Position>, child: Value, childPath: string)
    requires v.Arr? ==> n < |v.items| && child == v.items[n] && childPath == ItemPath(path, n)
    requires v.Obj? ==> n < |v.fields| && child == v.fields[n].value && childPath == ChildPath(path, v.fields[n].key)
    requires v.Obj? ==> !SensitiveKey(v.fields[n].key)
    requires v.Arr? || v.Obj?
    ensures RenderAll(v, path, Below(n, cuts)) == RenderAll(child, childPath, cuts)
  {
  }

  lemma RenderAllJoins(v: Value, path: string, a: seq<Position>, b: seq<Position>)
    ensures RenderAll(v, path, a + b) == RenderAll(v, path, a) + RenderAll(v, path, b)
  {
  }

  /** The two marker lists are one. */
  lemma MarkersAgree(key: string)
    ensures HasMarker(key, RUNTIME_MARKERS) <==> SensitiveKey(key)
  {
  }

  /** `redact_payload` of the runtime: the same tree as the audit store, and the report of every cut. */
  method RedactPayload(v: Value, path: string) returns (r: Value, redactedFields: seq<string>)
    ensures r == Scrubbed(v)
    ensures redactedFields == RenderAll(v, path, Cuts(v))
    decreases v, 1
  {
    match v
    case Obj(fields) =>
      r, redactedFields := RedactDict(v, path);
    case Arr(items) =>
      r, redactedFields := RedactList(v, path);
    case Str(s) =>
      r, redactedFields := Str(RedactText(s)), [];
      RedactTextReportsIffSensitive(s);
      if r.s != s {
        redactedFields := [if path != "" then path else "value"];
      }
    case _ =>
      r, redactedFields := v, [];
  }

  /** The case of a dictionary. */
  method RedactDict(v: Value, path: string) returns (r: Value, redactedFields: seq<string>)
    requires v.Obj?
    ensures r == Scrubbed(v)
    ensures redactedFields == RenderAll(v, path, Cuts(v))
    decreases v, 0
  {
    hide HasMarker, SensitiveKey, ChildPath, ItemPath;
    var fields := v.fields;
    redactedFields := [];
    var out: seq<Field> := [];
    for i := 0 to |fields|
      invariant |out| == i
      invariant forall k :: 0 <= k < i ==> out[k] == ScrubbedField(fields[k])
      invariant redactedFields == RenderAll(v, path, FieldCuts(fields[..i]))
    {
      var f := fields[i];
      var childPath := ChildPath(path, f.key);
      assert fields[..i + 1][..i] == fields[..i];
      MarkersAgree(f.key);
      if HasMarker(f.key, RUNTIME_MARKERS) {
        out := out + [Field(f.key, Str(REDACTED))];
        redactedFields := redactedFields + [childPath];
        RenderAllJoins(v, path, FieldCuts(fields[..i]), Below(i, [[]]));
        assert RenderAll(v, path, Below(i, [[]])) == [childPath];
      } else {
        var nested, nestedFields := RedactPayload(f.value, childPath);
        out := out + [Field(f.key, nested)];
        redactedFields := redactedFields + nestedFields;
        RenderAllJoins(v, path, FieldCuts(fields[..i]), Below(i, Cuts(f.value)));
        RenderBelow(v, path, i, Cuts(f.value), f.value, childPath);
      }
    }
    assert fields[..|fields|] == fields;
    r := Obj(out);
  }

  /** The case of a list. */
  method RedactList(v: Value, path: string) returns (r: Value, redactedFields: seq<string>)
    requires v.Arr?
    ensures r == Scrubbed(v)
    ensures redactedFields == RenderAll(v, path, Cuts(v))
    decreases v, 0
  {
    hide HasMarker, SensitiveKey, ChildPath, ItemPath;
    var items := v.items;
    redactedFields := [];
    var out: seq<Value> := [];
    for i := 0 to |items|
      invariant |out| == i
      invariant forall k :: 0 <= k < i ==> out[k] == Scrubbed(items[k])
      invariant redactedFields == RenderAll(v, path, ItemCuts(items[..i]))
    {
      var redacted, nestedFields := RedactPayload(items[i], ItemPath(path, i));
      out := out + [redacted];
      redactedFields := redactedFields + nestedFields;
      assert items[..i + 1][..i] == items[..i];
      RenderAllJoins(v, path, ItemCuts(items[..i]), Below(i, Cuts(items[i])));
      RenderBelow(v, path, i, Cuts(items[i]), items[i], ItemPath(path, i));
    }
    assert items[..|items|] == items;
    r := Arr(out);
  }
}
