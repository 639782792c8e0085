/** The per-session hash chain of `session_events` (platform/dolt_store.py). */
module AuditLog {
  import opened Wrappers
  import opened Json
  import opened Canonical
  import opened Redaction

  /** A row of `session_events`; the body is the stored tree, and "" stands for a null previous hash. */
  datatype EventRow = EventRow(
    id: nat, session: string, eventType: string, body: Value, order: nat, prev: string, hash: string)

  /** One call of `append_session_event`. */
  datatype Append = Append(session: string, eventType: string, body: Value)

  // ---- Queries ----

  /** `COALESCE(MAX(event_order), 0) + 1` over the rows of the session. */
  function NextOrder(events: seq<EventRow>, session: string): nat {
    if events == [] then 1
    else
      var n := |events| - 1;
      var before := NextOrder(events[..n], session);
      if events[n].session == session && events[n].order >= before then events[n].order + 1 else before
  }

  /** The row with the highest order; among equals the one inserted last. */
  function LatestRow(events: seq<EventRow>, session: string): Option<EventRow> {
    if events == [] then None
    else
      var n := |events| - 1;
      var before := LatestRow(events[..n], session);
      if events[n].session != session then before
      else if before.Some? && before.value.order > events[n].order then before
      else Some(events[n])
  }

  function LatestHash(events: seq<EventRow>, session: string): string {
    var row := LatestRow(events, session);
    if row.Some? then row.value.hash else ""
  }

  // ---- Appending ----

  /** The tree under the event hash. */
  function Payload(id: nat, session: string, eventType: string, body: Value, prev: string, order: nat): Value {
    Obj([Field("event_id", Num(id)), Field("session_id", Str(session)), Field("event_type", Str(eventType)),
         Field("body", body), Field("previous_hash", Str(prev)), Field("event_order", Num(order))])
  }

  /** `_append_session_event`: hash the scrubbed body, store it as sorted text. */
  function NewRow(sha: Value -> string, events: seq<EventRow>, a: Append): EventRow {
    var safeBody := Scrubbed(a.body);
    var prev := LatestHash(events, a.session);
    var order := NextOrder(events, a.session);
    EventRow(|events|, a.session, a.eventType, SortKeys(safeBody), order, prev,
             StableHash(sha, Payload(|events|, a.session, a.eventType, safeBody, prev, order)))
  }

  /** The table after a run of appends, interleaved over sessions in any way. */
  function EventTable(sha: Value -> string, appends: seq<Append>): (r: seq<EventRow>)
    ensures |r| == |appends|
  {
    if appends == [] then []
    else
      var before := EventTable(sha, appends[..|appends| - 1]);
      before + [NewRow(sha, before, appends[|appends| - 1])]
  }

  // ---- Chains ----

  /** The rows of one session, in the order of insertion. */
  function History(events: seq<EventRow>, session: string): (r: seq<EventRow>)
    ensures forall x :: x in r ==> x in events && x.session == session
  {
    if events == [] then []
    else
      var n := |events| - 1;
      var before := History(events[..n], session);
      assert forall x :: x in events[..n] ==> x in events;
      if events[n].session == session then before + [events[n]] else before
  }

  /** The hash that a row ought to have, from what it stores. */
  function Recomputed(sha: Value -> string, row: EventRow): string {
    StableHash(sha, Payload(row.id, row.session, row.eventType, row.body, row.prev, row.order))
  }

  /** A stored body: canonical, well formed, and without a secret. */
  predicate StoredBody(v: Value) {
    WellFormed(v) && SortKeys(v) == v
  }

  /** Row `i` of a chain: its order, its link to the predecessor, its hash. */
  predicate Linked(sha: Value -> string, h: seq<EventRow>, i: nat)
    requires i < |h|
  {
    && h[i].order == i + 1
    && h[i].prev == (if i == 0 then "" else h[i - 1].hash)
    && h[i].hash == Recomputed(sha, h[i])
    && StoredBody(h[i].body)
  }

  ghost predicate Chain(sha: Value -> string, h: seq<EventRow>) {
    forall i :: 0 <= i < |h| ==> Linked(sha, h, i)
  }

  function HeadHash(h: seq<EventRow>): string {
    if h == [] then "" else h[|h| - 1].hash
  }

  /** In a chained table, the two queries find the end of the session's history. */
  lemma {:induction false} QueriesFindHead(sha: Value -> string, events: seq<EventRow>, session: string)
    requires Chain(sha, History(events, session))
    ensures NextOrder(events, session) == |History(events, session)| + 1
    ensures LatestRow(events, session).Some? <==> History(events, session) != []
    ensures History(events, session) != [] ==> LatestRow(events, session).value == History(events, session)[|History(events, session)| - 1]
    ensures LatestHash(events, session) == HeadHash(History(events, session))
  {
    if events != [] {
      var n := |events| - 1;
      var before := History(events[..n], session);
      var h := History(events, session);
      forall i | 0 <= i < |before| ensures Linked(sha, before, i) {
        assert h[i] == before[i] && (i > 0 ==> h[i - 1] == before[i - 1]);
        assert Linked(sha, h, i);
      }
      QueriesFindHead(sha, events[..n], session);
      if events[n].session == session {
        assert Linked(sha, h, |h| - 1);
        if before != [] {
          assert Linked(sha, h, |before| - 1);
        }
      }
    }
  }

  /** Sorting the body before hashing changes nothing: the hash sorts anyway. */
  lemma StoredHash(sha: Value -> string, id: nat, session: string, eventType: string, body: Value, prev: string, order: nat)
    requires WellFormed(body)
    ensures StableHash(sha, Payload(id, session, eventType, SortKeys(body), prev, order))
         == StableHash(sha, Payload(id, session, eventType, body, prev, order))
  {
    hide SortFields;
    SortKeysIdempotent(body);
    var a, b := Payload(id, session, eventType, body, prev, order), Payload(id, session, eventType, SortKeys(body), prev, order);
    assert SortedValues(a) == SortedValues(b);
  }

  /** One append extends the history of its session by one linked row and leaves every other history alone. */
  lemma AppendLinks(sha: Value -> string, events: seq<EventRow>, a: Append, session: string)
    requires Chain(sha, History(events, session)) && WellFormed(a.body)
    ensures History(events + [NewRow(sha, events, a)], session)
         == History(events, session) + (if a.session == session then [NewRow(sha, events, a)] else [])
    ensures Chain(sha, History(events + [NewRow(sha, events, a)], session))
  {
    var row := NewRow(sha, events, a);
    var before, h := History(events, session), History(events + [row], session);
    assert (events + [row])[..|events|] == events;
    forall i | 0 <= i < |h| ensures Linked(sha, h, i) {
      if i < |before| {
        assert Linked(sha, before, i);
      } else {
        QueriesFindHead(sha, events, session);
        ScrubbedWellFormed(a.body);
        SortKeysIdempotent(Scrubbed(a.body));
        StoredHash(sha, row.id, row.session, row.eventType, Scrubbed(a.body), row.prev, row.order);
      }
    }
  }

  /** The appends to one session, in order. */
  function Sent(appends: seq<Append>, session: string): seq<Append> {
    if appends == [] then []
    else
      var n := |appends| - 1;
      var before := Sent(appends[..n], session);
      if appends[n].session == session then before + [appends[n]] else before
  }

  /** A history records exactly the given appends, in order, with their bodies scrubbed. */
  ghost predicate Records(h: seq<EventRow>, sent: seq<Append>) {
    && |h| == |sent|
    && forall i :: 0 <= i < |h| ==> h[i].session == sent[i].session && h[i].eventType == sent[i].eventType
                                    && h[i].body == SortKeys(Scrubbed(sent[i].body))
  }

  /**
   * Under any interleaving of appends to any sessions, every session's events form a chain with orders 1..n, and they
   * record exactly the appends to that session, in order.
   */
  lemma {:induction false} EverySessionIsChained(sha: Value -> string, appends: seq<Append>, session: string)
    requires forall a :: a in appends ==> WellFormed(a.body)
    ensures Chain(sha, History(EventTable(sha, appends), session))
    ensures Records(History(EventTable(sha, appends), session), Sent(appends, session))
  {
    if appends != [] {
      var n := |appends| - 1;
      forall a | a in appends[..n] ensures WellFormed(a.body) {
        assert a in appends;
      }
      EverySessionIsChained(sha, appends[..n], session);
      AppendLinks(sha, EventTable(sha, appends[..n]), appends[n], session);
    }
  }

  // ---- Tamper evidence ----

  lemma SameFieldSameKey(f: Field, fields: seq<Field>, k: nat)
    requires f in fields && k < |fields| && fields[k].key == f.key && DistinctKeys(fields)
    ensures f == fields[k]
  {
  }

  /** Rows with equal recomputed hashes are the same row. */
  lemma PayloadInjective(sha: Value -> string, a: EventRow, b: EventRow)
    requires PerfectHash(sha) && StoredBody(a.body) && StoredBody(b.body)
    requires Recomputed(sha, a) == Recomputed(sha, b) && a.hash == b.hash
    ensures a == b
  {
    hide SortKeys, SortFields, DistinctKeys, StoredBody;
    var x := Payload(a.id, a.session, a.eventType, a.body, a.prev, a.order);
    var y := Payload(b.id, b.session, b.eventType, b.body, b.prev, b.order);
    assert SortKeys(x) == SortKeys(y);
    PayloadFields(a);
    PayloadFields(b);
    forall k | 0 <= k < 6 ensures x.fields[k] == y.fields[k] {
      assert x.fields[k] in x.fields;
      SameFieldSameKey(x.fields[k], y.fields, k);
    }
    assert x.fields[0] == y.fields[0] && x.fields[1] == y.fields[1] && x.fields[2] == y.fields[2];
    assert x.fields[3] == y.fields[3] && x.fields[4] == y.fields[4] && x.fields[5] == y.fields[5];
  }

  lemma PayloadDistinct(a: EventRow)
    ensures DistinctKeys(Payload(a.id, a.session, a.eventType, a.body, a.prev, a.order).fields)
  {
  }

  lemma FixedFields(v: Value)
    requires v.Obj? && forall i :: 0 <= i < |v.fields| ==> SortKeys(v.fields[i].value) == v.fields[i].value
    ensures SortKeys(v).Obj? && forall f :: f in SortKeys(v).fields <==> f in v.fields
  {
    SortFieldsPermutes(SortedValues(v));
    assert SortedValues(v) == v.fields;
  }

  /** The fields of the hashed tree are the fields of the payload. */
  lemma PayloadFields(a: EventRow)
    requires StoredBody(a.body)
    ensures var x := Payload(a.id, a.session, a.eventType, a.body, a.prev, a.order);
      && DistinctKeys(x.fields) && SortKeys(x).Obj?
      && forall f :: f in SortKeys(x).fields <==> f in x.fields
  {
    hide SortFields, DistinctKeys, WellFormed, SortedValues;
    PayloadDistinct(a);
    var x := Payload(a.id, a.session, a.eventType, a.body, a.prev, a.order);
    forall i | 0 <= i < 6 ensures SortKeys(x.fields[i].value) == x.fields[i].value {
      assert x.fields[i].value == [Num(a.id), Str(a.session), Str(a.eventType), a.body, Str(a.prev), Num(a.order)][i];
    }
    FixedFields(x);
  }

  /** Equal head hashes mean equal histories: not one stored field of one event can differ. */
  lemma {:induction false} EqualHeadsEqualHistories(sha: Value -> string, a: seq<EventRow>, b: seq<EventRow>)
    requires PerfectHash(sha) && Chain(sha, a) && Chain(sha, b)
    requires HeadHash(a) == HeadHash(b)
    ensures a == b
    decreases |a|
  {
    if a != [] {
      assert Linked(sha, a, |a| - 1);
    }
    if b != [] {
      assert Linked(sha, b, |b| - 1);
    }
    if a != [] && b != [] {
      var m, n := |a| - 1, |b| - 1;
      PayloadInjective(sha, a[m], b[n]);
      forall i | 0 <= i < m ensures Linked(sha, a[..m], i) {
        assert Linked(sha, a, i);
      }
      forall i | 0 <= i < n ensures Linked(sha, b[..n], i) {
        assert Linked(sha, b, i);
      }
      EqualHeadsEqualHistories(sha, a[..m], b[..n]);
      assert a == a[..m] + [a[m]] && b == b[..n] + [b[n]];
    }
  }
}
