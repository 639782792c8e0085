/** `plain_data`, `canonical_json` and `stable_hash` of platform/policy_contracts.py. */
module Canonical {
  import opened Text
  import opened Json

  // ---- Sorting fields by key ----

  /** Insertion of one field into a list sorted by key. */
  function Insert(f: Field, fields: seq<Field>): (r: seq<Field>) {
    if fields == [] || StringLeq(f.key, fields[0].key) then [f] + fields
    else [fields[0]] + Insert(f, fields[1..])
  }

  /** `sorted(d.items())`, or the field order of `json.dumps(..., sort_keys=True)`. */
  function SortFields(fields: seq<Field>): (r: seq<Field>) {
    if fields == [] then [] else Insert(fields[0], SortFields(fields[1..]))
  }

  /** Keys strictly increase. */
  predicate StrictlySorted(fields: seq<Field>) {
    forall i, j :: 0 <= i < j < |fields| ==> StringLeq(fields[i].key, fields[j].key) && fields[i].key != fields[j].key
  }

  lemma {:induction false} InsertKeepsFields(f: Field, fields: seq<Field>)
    ensures multiset(Insert(f, fields)) == multiset(fields) + multiset{f}
  {
    if fields == [] || StringLeq(f.key, fields[0].key) {
    } else {
      InsertKeepsFields(f, fields[1..]);
      assert fields == [fields[0]] + fields[1..];
    }
  }

  lemma {:induction false} SortFieldsPermutes(fields: seq<Field>)
    ensures multiset(SortFields(fields)) == multiset(fields)
    ensures |SortFields(fields)| == |fields|
    ensures forall f :: f in SortFields(fields) <==> f in fields
  {
    if fields != [] {
      SortFieldsPermutes(fields[1..]);
      InsertKeepsFields(fields[0], SortFields(fields[1..]));
      assert fields == [fields[0]] + fields[1..];
    }
    SameMultiset(SortFields(fields), fields);
  }

  lemma SameMultiset(a: seq<Field>, b: seq<Field>)
    requires multiset(a) == multiset(b)
    ensures |a| == |b| && forall f :: f in a <==> f in b
  {
    assert |multiset(a)| == |multiset(b)|;
    assert forall f :: f in a <==> f in multiset(a);
    assert forall f :: f in b <==> f in multiset(b);
  }

  lemma {:induction false} InsertSorts(f: Field, fields: seq<Field>)
    requires StrictlySorted(fields)
    requires forall i :: 0 <= i < |fields| ==> fields[i].key != f.key
    ensures StrictlySorted(Insert(f, fields))
  {
    if fields == [] {
    } else if StringLeq(f.key, fields[0].key) {
      forall j | 0 <= j < |fields| ensures StringLeq(f.key, fields[j].key) {
        if j > 0 {
          StringLeqTransitive(f.key, fields[0].key, fields[j].key);
        }
      }
    } else {
      InsertSorts(f, fields[1..]);
      InsertKeepsFields(f, fields[1..]);
      StringLeqTotal(f.key, fields[0].key);
      var rest := Insert(f, fields[1..]);
      forall j | 0 <= j < |rest| ensures StringLeq(fields[0].key, rest[j].key) && fields[0].key != rest[j].key {
        assert rest[j] in multiset(rest);
        assert rest[j] == f || rest[j] in fields[1..];
      }
    }
  }

  lemma {:induction false} SortFieldsSorts(fields: seq<Field>)
    requires DistinctKeys(fields)
    ensures StrictlySorted(SortFields(fields))
  {
    if fields != [] {
      SortFieldsSorts(fields[1..]);
      SortFieldsPermutes(fields[1..]);
      var rest := SortFields(fields[1..]);
      forall i | 0 <= i < |rest| ensures rest[i].key != fields[0].key {
        assert rest[i] in fields[1..];
      }
      InsertSorts(fields[0], rest);
    }
  }

  /** A strictly sorted list is determined by its set of fields. */
  lemma {:induction false} StrictlySortedUnique(a: seq<Field>, b: seq<Field>)
    requires StrictlySorted(a) && StrictlySorted(b)
    requires forall f :: f in a <==> f in b
    ensures a == b
  {
    assert |b| > 0 ==> b[0] in a;
    if a != [] {
      assert a[0] in b && b != [];
      assert b[0] in a;
      StringLeqAntisymmetric(a[0].key, b[0].key) by {
        var i :| 0 <= i < |a| && a[i] == b[0];
        var j :| 0 <= j < |b| && b[j] == a[0];
        StringLeqTotal(a[0].key, a[0].key);
      }
      assert a[0] == b[0] by {
        var i :| 0 <= i < |a| && a[i] == b[0];
        assert i == 0;
      }
      forall f ensures f in a[1..] <==> f in b[1..] {
        if f in a[1..] { assert f in b && f != b[0]; }
        if f in b[1..] { assert f in a && f != a[0]; }
      }
      StrictlySortedUnique(a[1..], b[1..]);
      assert a == [a[0]] + a[1..] && b == [b[0]] + b[1..];
    }
  }

  lemma {:induction false} SortedStaysPut(fields: seq<Field>)
    requires StrictlySorted(fields)
    ensures SortFields(fields) == fields
  {
    SortFieldsSorts(fields);
    SortFieldsPermutes(fields);
    StrictlySortedUnique(SortFields(fields), fields);
  }

  // ---- The canonical tree ----

  /** The tree that `json.dumps(value, sort_keys=True)` prints. */
  function SortKeys(v: Value): (r: Value) {
    match v
    case Arr(items) => Arr(seq(|items|, i requires 0 <= i < |items| => SortKeys(items[i])))
    case Obj(fields) => Obj(SortFields(SortedValues(v)))
    case _ => v
  }

  /** The fields of an object with every value in canonical form, still in insertion order. */
  function SortedValues(v: Value): (r: seq<Field>)
    requires v.Obj?
    decreases v, 0
    ensures |r| == |v.fields|
  {
    seq(|v.fields|, i requires 0 <= i < |v.fields| => Field(v.fields[i].key, SortKeys(v.fields[i].value)))
  }

  /** Python's `==` on trees: the key order of dictionaries does not matter. */
  predicate SameValue(a: Value, b: Value)
    decreases a
  {
    match a
    case Arr(items) =>
      b.Arr? && |items| == |b.items| && forall i :: 0 <= i < |items| ==> SameValue(items[i], b.items[i])
    case Obj(fields) =>
      && b.Obj?
      && (forall i :: 0 <= i < |fields| ==> MatchedIn(fields[i], b.fields))
      && (forall j :: 0 <= j < |b.fields| ==> MatchesIn(fields, b.fields[j]))
    case _ => a == b
  }

  /** Some field of `gs` has the key and the value of `f`. */
  predicate MatchedIn(f: Field, gs: seq<Field>)
    decreases f, 1
  {
    exists j :: 0 <= j < |gs| && SameField(f, gs[j])
  }

  /** Some field of `fs` has the key and the value of `g`. */
  predicate MatchesIn(fs: seq<Field>, g: Field)
    decreases fs, 1
  {
    exists i :: 0 <= i < |fs| && SameField(fs[i], g)
  }

  predicate SameField(f: Field, g: Field)
    decreases f, 0
  {
    f.key == g.key && SameValue(f.value, g.value)
  }

  /** Sorting the fields of two objects gives one list exactly when they have the same sorted fields. */
  lemma SortedAlike(a: Value, b: Value)
    requires a.Obj? && b.Obj? && DistinctKeys(a.fields) && DistinctKeys(b.fields)
    ensures SortFields(SortedValues(a)) == SortFields(SortedValues(b))
       <==> (forall f :: f in SortedValues(a) <==> f in SortedValues(b))
  {
    var x, y := SortedValues(a), SortedValues(b);
    SortFieldsPermutes(x);
    SortFieldsPermutes(y);
    SortFieldsSorts(x);
    SortFieldsSorts(y);
    if forall f :: f in x <==> f in y {
      StrictlySortedUnique(SortFields(x), SortFields(y));
    } else {
      var f :| !(f in x <==> f in y);
      assert !(f in SortFields(x) <==> f in SortFields(y));
    }
  }

  /** The canonical form forgets key order and nothing else. */
  lemma {:induction false} CanonicalIffSameValue(a: Value, b: Value)
    requires WellFormed(a) && WellFormed(b)
    ensures SortKeys(a) == SortKeys(b) <==> SameValue(a, b)
    decreases a, 1
  {
    if a.Arr? && b.Arr? && |a.items| == |b.items| {
      var x, y := SortKeys(a).items, SortKeys(b).items;
      forall i | 0 <= i < |a.items| ensures x[i] == y[i] <==> SameValue(a.items[i], b.items[i]) {
        CanonicalIffSameValue(a.items[i], b.items[i]);
      }
      assert x == y <==> forall i :: 0 <= i < |a.items| ==> x[i] == y[i];
    } else if a.Arr? && b.Arr? {
      assert |SortKeys(a).items| != |SortKeys(b).items|;
    } else if a.Obj? && b.Obj? {
      CanonicalObjects(a, b);
    }
  }

  /** The object case: the values mirror each other by induction, and sorting removes the order. */
  lemma {:induction false} CanonicalObjects(a: Value, b: Value)
    requires a.Obj? && b.Obj? && WellFormed(a) && WellFormed(b)
    ensures SortFields(SortedValues(a)) == SortFields(SortedValues(b)) <==> SameValue(a, b)
    decreases a, 0
  {
    var x, y := SortedValues(a), SortedValues(b);
    assert Mirrors(x, y, a.fields, b.fields) by {
      forall i, j | 0 <= i < |x| && 0 <= j < |y| ensures x[i] == y[j] <==> SameField(a.fields[i], b.fields[j]) {
        CanonicalIffSameValue(a.fields[i].value, b.fields[j].value);
      }
    }
    SortedAlike(a, b);
    MirrorLeft(x, y, a.fields, b.fields);
    MirrorRight(x, y, a.fields, b.fields);
  }

  /** Whether two lists of fields correspond, position by position, to the fields they were made from. */
  ghost predicate Mirrors(x: seq<Field>, y: seq<Field>, fs: seq<Field>, gs: seq<Field>) {
    && |x| == |fs| && |y| == |gs|
    && forall i, j :: 0 <= i < |x| && 0 <= j < |y| ==> (x[i] == y[j] <==> SameField(fs[i], gs[j]))
  }

  lemma MirrorLeft(x: seq<Field>, y: seq<Field>, fs: seq<Field>, gs: seq<Field>)
    requires Mirrors(x, y, fs, gs)
    ensures (forall f :: f in x ==> f in y) <==> (forall i :: 0 <= i < |fs| ==> MatchedIn(fs[i], gs))
  {
    forall i | 0 <= i < |x| ensures x[i] in y <==> MatchedIn(fs[i], gs) {
      if x[i] in y {
        var j :| 0 <= j < |y| && y[j] == x[i];
        assert SameField(fs[i], gs[j]);
      }
    }
    assert (forall f :: f in x ==> f in y) <==> (forall i :: 0 <= i < |x| ==> x[i] in y);
  }

  lemma MirrorRight(x: seq<Field>, y: seq<Field>, fs: seq<Field>, gs: seq<Field>)
    requires Mirrors(x, y, fs, gs)
    ensures (forall f :: f in y ==> f in x) <==> (forall j :: 0 <= j < |gs| ==> MatchesIn(fs, gs[j]))
  {
    forall j | 0 <= j < |y| ensures y[j] in x <==> MatchesIn(fs, gs[j]) {
      if y[j] in x {
        var i :| 0 <= i < |x| && x[i] == y[j];
        assert SameField(fs[i], gs[j]);
      }
    }
    assert (forall f :: f in y ==> f in x) <==> (forall j :: 0 <= j < |y| ==> y[j] in x);
  }

  /** The canonical form is well formed, and sorting it again changes nothing. */
  lemma {:induction false} SortKeysIdempotent(v: Value)
    requires WellFormed(v)
    ensures WellFormed(SortKeys(v))
    ensures SortKeys(SortKeys(v)) == SortKeys(v)
  {
    match v
    case Arr(items) =>
      forall i | 0 <= i < |items|
        ensures WellFormed(SortKeys(items[i])) && SortKeys(SortKeys(items[i])) == SortKeys(items[i])
      {
        SortKeysIdempotent(items[i]);
      }
    case Obj(fields) =>
      var x := SortedValues(v);
      SortFieldsPermutes(x);
      SortFieldsSorts(x);
      var s := SortFields(x);
      forall i | 0 <= i < |s|
        ensures WellFormed(s[i].value) && SortKeys(s[i].value) == s[i].value
      {
        assert s[i] in x;
        var k :| 0 <= k < |x| && x[k] == s[i];
        SortKeysIdempotent(fields[k].value);
      }
      assert SortedValues(SortKeys(v)) == s;
      SortedStaysPut(s);
    case _ =>
  }

  // ---- plain_data ----

  /** What the runtime hashes: JSON values, enumeration members and frozen dataclasses. */
  datatype PyValue =
    | Plain(leaf: Value)
    | Member(text: string)
    | List(elements: seq<PyValue>)
    | Dict(entries: seq<PyField>)
    | Record(attributes: seq<PyField>)

  datatype PyField = PyField(key: string, value: PyValue)

  predicate PyDistinct(fields: seq<PyField>) {
    forall i, j :: 0 <= i < j < |fields| ==> fields[i].key != fields[j].key
  }

  /** Keys are distinct, and leaves are scalars. */
  predicate PyWellFormed(v: PyValue) {
    match v
    case Plain(leaf) => !leaf.Arr? && !leaf.Obj?
    case Member(_) => true
    case List(elements) => forall i :: 0 <= i < |elements| ==> PyWellFormed(elements[i])
    case Dict(entries) => PyDistinct(entries) && forall i :: 0 <= i < |entries| ==> PyWellFormed(entries[i].value)
    case Record(attributes) => PyDistinct(attributes) && forall i :: 0 <= i < |attributes| ==> PyWellFormed(attributes[i].value)
  }

  /**
   * The inner `normalize` of `plain_data`. Dictionaries are sorted. A dataclass goes through `asdict`, which turns every dataclass below it
   * into a dictionary (hence sorted), but its own fields keep their declaration order.
   */
  function Normalize(v: PyValue, inRecord: bool): (r: Value)
    decreases v, 1
  {
    match v
    case Plain(leaf) => leaf
    case Member(text) => Str(text)
    case List(elements) => Arr(seq(|elements|, i requires 0 <= i < |elements| => Normalize(elements[i], inRecord)))
    case Dict(entries) => Obj(SortFields(PlainFields(entries, inRecord)))
    case Record(attributes) =>
      if inRecord then Obj(SortFields(PlainFields(attributes, true))) else Obj(PlainFields(attributes, true))
  }

  function PlainFields(fields: seq<PyField>, inRecord: bool): (r: seq<Field>)
    decreases fields, 0
    ensures |r| == |fields|
  {
    seq(|fields|, i requires 0 <= i < |fields| => Field(fields[i].key, Normalize(fields[i].value, inRecord)))
  }

  /** `plain_data`. */
  function PlainData(v: PyValue): (r: Value) {
    Normalize(v, false)
  }

  /** No dataclass that keeps its field order (one not inside another) declares its fields out of key order. */
  predicate OrderedRecords(v: PyValue) {
    match v
    case List(elements) => forall i :: 0 <= i < |elements| ==> OrderedRecords(elements[i])
    case Dict(entries) => forall i :: 0 <= i < |entries| ==> OrderedRecords(entries[i].value)
    case Record(attributes) => forall i, j :: 0 <= i < j < |attributes| ==> StringLeq(attributes[i].key, attributes[j].key)
    case _ => true
  }

  /** `normalize` yields a well-formed tree; below a dataclass it is already canonical. */
  lemma {:induction false} NormalizeWellFormed(v: PyValue, inRecord: bool)
    requires PyWellFormed(v)
    ensures WellFormed(Normalize(v, inRecord))
    ensures inRecord ==> SortKeys(Normalize(v, inRecord)) == Normalize(v, inRecord)
    decreases v, 1
  {
    match v
    case List(elements) =>
      forall i | 0 <= i < |elements|
        ensures WellFormed(Normalize(elements[i], inRecord))
        ensures inRecord ==> SortKeys(Normalize(elements[i], inRecord)) == Normalize(elements[i], inRecord)
      {
        NormalizeWellFormed(elements[i], inRecord);
      }
    case Dict(entries) =>
      PlainFieldsWellFormed(entries, inRecord);
    case Record(attributes) =>
      PlainFieldsWellFormed(attributes, true);
    case _ =>
  }

  lemma {:induction false} PlainFieldsWellFormed(fields: seq<PyField>, inRecord: bool)
    requires PyDistinct(fields) && forall i :: 0 <= i < |fields| ==> PyWellFormed(fields[i].value)
    ensures WellFormed(Obj(PlainFields(fields, inRecord))) && WellFormed(Obj(SortFields(PlainFields(fields, inRecord))))
    ensures inRecord ==> SortedValues(Obj(PlainFields(fields, inRecord))) == PlainFields(fields, inRecord)
    ensures inRecord ==> SortKeys(Obj(SortFields(PlainFields(fields, inRecord)))) == Obj(SortFields(PlainFields(fields, inRecord)))
    decreases fields, 0
  {
    var p := PlainFields(fields, inRecord);
    forall i | 0 <= i < |fields|
      ensures WellFormed(p[i].value) && (inRecord ==> SortKeys(p[i].value) == p[i].value)
    {
      NormalizeWellFormed(fields[i].value, inRecord);
    }
    SortFieldsPermutes(p);
    SortFieldsSorts(p);
    var s := SortFields(p);
    forall i | 0 <= i < |s| ensures WellFormed(s[i].value) && (inRecord ==> SortKeys(s[i].value) == s[i].value) {
      assert s[i] in p;
    }
    if inRecord {
      assert SortedValues(Obj(s)) == s;
      SortedStaysPut(s);
    }
  }

  lemma {:induction false} SortedOnlyIfSorted(fields: seq<Field>)
    requires DistinctKeys(fields)
    ensures SortFields(fields) == fields <==> forall i, j :: 0 <= i < j < |fields| ==> StringLeq(fields[i].key, fields[j].key)
  {
    SortFieldsSorts(fields);
    if forall i, j :: 0 <= i < j < |fields| ==> StringLeq(fields[i].key, fields[j].key) {
      SortedStaysPut(fields);
    }
  }

  /** The result of `plain_data` is canonical exactly when no outer dataclass declares its fields out of key order. */
  lemma {:induction false} PlainDataCanonicalIff(v: PyValue)
    requires PyWellFormed(v)
    ensures SortKeys(PlainData(v)) == PlainData(v) <==> OrderedRecords(v)
  {
    match v
    case List(elements) =>
      var p := PlainData(v).items;
      var q := SortKeys(PlainData(v)).items;
      forall i | 0 <= i < |elements| ensures q[i] == p[i] <==> OrderedRecords(elements[i]) {
        PlainDataCanonicalIff(elements[i]);
      }
      assert q == p <==> forall i :: 0 <= i < |p| ==> q[i] == p[i];
    case Dict(entries) =>
      forall i | 0 <= i < |entries|
        ensures SortKeys(PlainData(entries[i].value)) == PlainData(entries[i].value) <==> OrderedRecords(entries[i].value)
      {
        PlainDataCanonicalIff(entries[i].value);
      }
      DictIdempotentIff(entries);
    case Record(attributes) =>
      var p := PlainFields(attributes, true);
      PlainFieldsWellFormed(attributes, true);
      SortedOnlyIfSorted(p);
      assert forall i :: 0 <= i < |p| ==> p[i].key == attributes[i].key;
    case _ =>
  }

  lemma {:induction false} DictIdempotentIff(entries: seq<PyField>)
    requires PyDistinct(entries)
    requires forall i :: 0 <= i < |entries| ==>
               (SortKeys(PlainData(entries[i].value)) == PlainData(entries[i].value) <==> OrderedRecords(entries[i].value))
    ensures SortKeys(PlainData(Dict(entries))) == PlainData(Dict(entries))
       <==> forall i :: 0 <= i < |entries| ==> OrderedRecords(entries[i].value)
  {
    var p := PlainFields(entries, false);
    assert forall i :: 0 <= i < |p| ==> (SortKeys(p[i].value) == p[i].value <==> OrderedRecords(entries[i].value));
    SortedDictStays(p);
  }

  /** A sorted dictionary is canonical exactly when all its values are. */
  lemma {:induction false} SortedDictStays(p: seq<Field>)
    requires DistinctKeys(p)
    ensures SortKeys(Obj(SortFields(p))) == Obj(SortFields(p)) <==> forall i :: 0 <= i < |p| ==> SortKeys(p[i].value) == p[i].value
  {
    var s := SortFields(p);
    SortFieldsPermutes(p);
    SortFieldsSorts(p);
    var q := SortedValues(Obj(s));
    assert StrictlySorted(q);
    SortedStaysPut(q);
    assert q == s <==> forall k :: 0 <= k < |s| ==> SortKeys(s[k].value) == s[k].value;
    forall k | 0 <= k < |s| ensures s[k] in p {
      assert s[k] in s;
    }
    forall i | 0 <= i < |p| ensures p[i] in s {
      assert p[i] in p;
    }
  }

  // ---- plain_data, applied again ----

  /** A plain tree as the Python value that it is: lists and dictionaries of scalars. */
  function Embed(v: Value): (r: PyValue)
    decreases v, 1
  {
    match v
    case Arr(items) => List(seq(|items|, i requires 0 <= i < |items| => Embed(items[i])))
    case Obj(fields) => Dict(EmbedFields(fields))
    case _ => Plain(v)
  }

  function EmbedFields(fields: seq<Field>): (r: seq<PyField>)
    decreases fields, 0
    ensures |r| == |fields|
  {
    seq(|fields|, i requires 0 <= i < |fields| => PyField(fields[i].key, Embed(fields[i].value)))
  }

  /** On plain trees, `plain_data` sorts the keys of every dictionary and does nothing else. */
  lemma {:induction false} PlainDataSorts(v: Value)
    ensures PlainData(Embed(v)) == SortKeys(v)
    decreases v
  {
    match v
    case Arr(items) =>
      forall i | 0 <= i < |items| ensures PlainData(Embed(items[i])) == SortKeys(items[i]) {
        PlainDataSorts(items[i]);
      }
      assert PlainData(Embed(v)).items == SortKeys(v).items;
    case Obj(fields) =>
      forall i | 0 <= i < |fields| ensures PlainData(Embed(fields[i].value)) == SortKeys(fields[i].value) {
        PlainDataSorts(fields[i].value);
      }
      assert PlainFields(EmbedFields(fields), false) == SortedValues(v);
    case _ =>
  }

  /** `plain_data` of a plain tree depends only on the tree up to key order, and determines it. */
  lemma PlainDataIffSameValue(a: Value, b: Value)
    requires WellFormed(a) && WellFormed(b)
    ensures PlainData(Embed(a)) == PlainData(Embed(b)) <==> SameValue(a, b)
  {
    PlainDataSorts(a);
    PlainDataSorts(b);
    CanonicalIffSameValue(a, b);
  }

  /**
   * `plain_data` applied to its own result returns that very tree exactly when no outer dataclass declares its
   * fields out of key order.
   */
  lemma PlainDataIdempotentIff(v: PyValue)
    requires PyWellFormed(v)
    ensures PlainData(Embed(PlainData(v))) == PlainData(v) <==> OrderedRecords(v)
  {
    PlainDataSorts(PlainData(v));
    PlainDataCanonicalIff(v);
  }

  /** A dataclass with fields out of order, on which `plain_data` twice is not `plain_data` once. */
  lemma PlainDataNotIdempotent()
    ensures var v := Record([PyField("b", Plain(Null)), PyField("a", Plain(Null))]);
      PyWellFormed(v) && PlainData(Embed(PlainData(v))) != PlainData(v)
  {
    var v := Record([PyField("b", Plain(Null)), PyField("a", Plain(Null))]);
    PlainDataSorts(PlainData(v));
  }

  /** No dataclass anywhere. */
  predicate NoRecords(v: PyValue) {
    match v
    case List(elements) => forall i :: 0 <= i < |elements| ==> NoRecords(elements[i])
    case Dict(entries) => forall i :: 0 <= i < |entries| ==> NoRecords(entries[i].value)
    case Record(_) => false
    case _ => true
  }

  lemma {:induction false} NoRecordsAreOrdered(v: PyValue)
    requires NoRecords(v)
    ensures OrderedRecords(v)
  {
    match v
    case List(elements) =>
      forall i | 0 <= i < |elements| ensures OrderedRecords(elements[i]) {
        NoRecordsAreOrdered(elements[i]);
      }
    case Dict(entries) =>
      forall i | 0 <= i < |entries| ensures OrderedRecords(entries[i].value) {
        NoRecordsAreOrdered(entries[i].value);
      }
    case _ =>
  }

  /** Applying `plain_data` again never changes anything but key order, and without dataclasses nothing at all. */
  lemma PlainDataIdempotent(v: PyValue)
    requires PyWellFormed(v)
    ensures SameValue(PlainData(Embed(PlainData(v))), PlainData(v))
    ensures NoRecords(v) ==> PlainData(Embed(PlainData(v))) == PlainData(v)
  {
    PlainDataSorts(PlainData(v));
    NormalizeWellFormed(v, false);
    SortKeysIdempotent(PlainData(v));
    CanonicalIffSameValue(SortKeys(PlainData(v)), PlainData(v));
    if NoRecords(v) {
      NoRecordsAreOrdered(v);
      PlainDataCanonicalIff(v);
    }
  }

  /** Canonical objects that agree hold the same value under every key that each holds once. */
  lemma CanonicalField(a: Value, b: Value, key: string, x: Value, y: Value)
    requires a.Obj? && b.Obj? && SortKeys(a) == SortKeys(b)
    requires Field(key, SortKeys(x)) in SortedValues(a)
    requires forall f :: f in SortedValues(b) && f.key == key ==> f.value == SortKeys(y)
    ensures SortKeys(x) == SortKeys(y)
  {
    SortFieldsPermutes(SortedValues(a));
    SortFieldsPermutes(SortedValues(b));
    assert Field(key, SortKeys(x)) in SortKeys(a).fields;
  }

  /** Objects with the same distinct keys in the same places have one canonical form exactly when all their values do. */
  lemma SameKeysAgree(x: seq<Field>, y: seq<Field>)
    requires |x| == |y| && DistinctKeys(x) && forall n :: 0 <= n < |x| ==> x[n].key == y[n].key
    ensures SortKeys(Obj(x)) == SortKeys(Obj(y)) <==> forall n :: 0 <= n < |x| ==> SortKeys(x[n].value) == SortKeys(y[n].value)
  {
    var a, b := SortedValues(Obj(x)), SortedValues(Obj(y));
    if SortKeys(Obj(x)) == SortKeys(Obj(y)) {
      forall n | 0 <= n < |x| ensures SortKeys(x[n].value) == SortKeys(y[n].value) {
        assert a[n] == Field(x[n].key, SortKeys(x[n].value));
        CanonicalField(Obj(x), Obj(y), x[n].key, x[n].value, y[n].value);
      }
    } else {
      assert a != b;
      var n :| 0 <= n < |x| && a[n] != b[n];
    }
  }

  // ---- stable_hash ----

  /** A digest of canonical trees without collisions; a digest is never the empty string. */
  ghost predicate PerfectHash(sha: Value -> string) {
    && (forall a, b :: sha(a) == sha(b) ==> a == b)
    && (forall a :: sha(a) != "")
  }

  /** `stable_hash` of a tree. */
  function StableHash(sha: Value -> string, v: Value): string {
    sha(SortKeys(v))
  }

  /** Equal hashes mean equal Python values, and equal values hash alike however their keys are ordered. */
  lemma StableHashIffSameValue(sha: Value -> string, a: Value, b: Value)
    requires PerfectHash(sha) && WellFormed(a) && WellFormed(b)
    ensures StableHash(sha, a) == StableHash(sha, b) <==> SameValue(a, b)
  {
    CanonicalIffSameValue(a, b);
  }
}
