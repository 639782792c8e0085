/** The stored form of the store's events, and their hash chain. */
module LedgerEvents {
  import opened Wrappers
  import opened Text
  import opened Json
  import opened Canonical
  import opened Redaction
  import opened PolicyDecide
  import opened AuditLog
  import opened Ledger

  /** `event_type` */
  function EventType(e: Event): string {
    match e
    case GrantIssued(_, _, _, _, _, _, _, _) => "grant_issued"
    case GrantConsumed(_, _, _, _, _) => "grant_consumed"
    case RequestOpened(_, args) => if args.phase == "preflight" then "access_request_sent" else "access_request_created"
    case RequestApproved(_, _, _, _, _) => "access_request_approved"
    case ToolCallObserved(_, _, _, _, _) => "anticipated_request_observed_tool_call"
    case DecisionRecorded(_, _, _, _, _, _, _, _) => "policy_decision_recorded"
    case CallExecuted(_, _, _, _, _, _, _) => "downstream_call_executed"
    case Other(eventType, _) => eventType
  }

  function TextOrNull(o: Option<string>): Value {
    if o.Some? then Str(o.value) else Null
  }

  function NumOrNull(o: Option<int>): Value {
    if o.Some? then Num(o.value) else Null
  }

  /** The body before it is scrubbed; identifiers are numbers. */
  function EventBody(e: Event): Value {
    match e
    case GrantIssued(grant, scope, resource, issuer, proofId, reason, ttl, count) =>
      Obj([Field("grant_id", Num(grant)), Field("scope", Str(scope)), Field("resource_id", Str(resource)), Field("issuer", Str(issuer)),
           Field("proof_id", Str(proofId)), Field("reason", Str(reason)), Field("ttl_seconds", Num(ttl)),
           Field("call_count_remaining", Num(count))])
    case GrantConsumed(grant, tool, resource, decision, remaining) =>
      Obj([Field("grant_id", Num(grant)), Field("tool_id", Str(tool)), Field("resource_id", Str(resource)),
           Field("decision_id", Num(decision)), Field("call_count_remaining", Num(remaining))])
    case RequestOpened(request, a) =>
      Obj([Field("request_id", Num(request)), Field("tool_id", Str(a.tool)), Field("scope", Str(a.scope)),
           Field("resource_id", Str(a.resource)), Field("recipe_id", TextOrNull(a.recipe)), Field("proof_id", Str(a.proofId)),
           Field("request_origin", Str(a.origin)), Field("prediction_id", TextOrNull(a.predictionId)),
           Field("prediction_confidence", NumOrNull(a.confidence)), Field("created_before_tool_call", Bool(a.early)),
           Field("trigger_phase", Str(a.phase))])
    case RequestApproved(request, approver, grant, scope, resource) =>
      Obj([Field("request_id", Num(request)), Field("approver_id", Str(approver)), Field("grant_id", Num(grant)),
           Field("scope", Str(scope)), Field("resource_id", Str(resource))])
    case ToolCallObserved(request, tool, resource, origin, early) =>
      Obj([Field("request_id", Num(request)), Field("tool_id", Str(tool)), Field("resource_id", Str(resource)),
           Field("request_origin", Str(origin)), Field("created_before_tool_call", Bool(early))])
    case DecisionRecorded(decision, check, checkState, verdict, tool, resource, snapshot, proofHash) =>
      Obj([Field("decision_id", Num(decision)), Field("check_id", Num(check)), Field("check_state", Str(checkState)),
           Field("decision", Str(DecisionText(verdict))), Field("tool_id", Str(tool)), Field("resource_id", Str(resource)),
           Field("snapshot_id", Num(snapshot)), Field("proof_hash", Str(proofHash))])
    case CallExecuted(decision, check, tool, resource, proofId, status, mode) =>
      Obj([Field("tool_id", Str(tool)), Field("resource_id", Str(resource)), Field("decision_id", Num(decision)),
           Field("check_id", Num(check)), Field("proof_id", Str(proofId)), Field("status", Str(status)), Field("mode", Str(mode))])
    case Other(_, body) => body
  }

  function AppendOf(e: Entry): Append {
    Append(e.session, EventType(e.event), EventBody(e.event))
  }

  function AppendsOf(log: seq<Entry>): (r: seq<Append>)
    ensures |r| == |log| && forall i :: 0 <= i < |log| ==> r[i] == AppendOf(log[i])
  {
    seq(|log|, i requires 0 <= i < |log| => AppendOf(log[i]))
  }

  /** A body is a proper dictionary. */
  predicate Proper(e: Event) {
    e.Other? ==> WellFormed(e.body)
  }

  predicate ProperLog(log: seq<Entry>) {
    forall k :: 0 <= k < |log| ==> Proper(log[k].event)
  }

  lemma OpenedDistinct(e: Event)
    requires e.RequestOpened?
    ensures DistinctKeys(EventBody(e).fields)
  {
  }

  lemma IssuedDistinct(e: Event)
    requires e.GrantIssued?
    ensures DistinctKeys(EventBody(e).fields)
  {
  }

  lemma RecordedDistinct(e: Event)
    requires e.DecisionRecorded?
    ensures DistinctKeys(EventBody(e).fields)
  {
  }

  lemma ExecutedDistinct(e: Event)
    requires e.CallExecuted?
    ensures DistinctKeys(EventBody(e).fields)
  {
  }

  lemma ConsumedDistinct(e: Event)
    requires e.GrantConsumed?
    ensures DistinctKeys(EventBody(e).fields)
  {
  }

  lemma ApprovedDistinct(e: Event)
    requires e.RequestApproved?
    ensures DistinctKeys(EventBody(e).fields)
  {
  }

  lemma ObservedDistinct(e: Event)
    requires e.ToolCallObserved?
    ensures DistinctKeys(EventBody(e).fields)
  {
  }

  predicate Scalar(v: Value) {
    !v.Arr? && !v.Obj?
  }

  /** A scalar, or a list of scalars. */
  predicate Shallow(v: Value) {
    Scalar(v) || (v.Arr? && forall i :: 0 <= i < |v.items| ==> Scalar(v.items[i]))
  }

  lemma ShallowWellFormed(v: Value)
    requires Shallow(v)
    ensures WellFormed(v)
  {
    if v.Arr? {
      forall i | 0 <= i < |v.items| ensures WellFormed(v.items[i]) {
        assert Scalar(v.items[i]);
      }
    }
  }

  /** A dictionary of shallow values with distinct keys is well formed. */
  lemma FlatIsWellFormed(fields: seq<Field>)
    requires DistinctKeys(fields) && forall i :: 0 <= i < |fields| ==> Shallow(fields[i].value)
    ensures WellFormed(Obj(fields))
  {
    forall i | 0 <= i < |fields| ensures WellFormed(fields[i].value) {
      ShallowWellFormed(fields[i].value);
    }
  }

  lemma BodyIsFlat(e: Event)
    requires !e.Other?
    ensures EventBody(e).Obj? && forall i :: 0 <= i < |EventBody(e).fields| ==> Scalar(EventBody(e).fields[i].value)
  {
  }

  lemma BodyWellFormed(e: Event)
    requires Proper(e)
    ensures WellFormed(EventBody(e))
  {
    hide DistinctKeys;
    if !e.Other? {
      BodyIsFlat(e);
      BodyDistinct(e);
      hide EventBody;
    }
  }

  lemma BodyDistinct(e: Event)
    requires !e.Other?
    ensures EventBody(e).Obj? && DistinctKeys(EventBody(e).fields)
  {
    hide DistinctKeys;
    match e {
      case GrantIssued(_, _, _, _, _, _, _, _) => IssuedDistinct(e);
      case GrantConsumed(_, _, _, _, _) => ConsumedDistinct(e);
      case RequestOpened(_, _) => OpenedDistinct(e);
      case RequestApproved(_, _, _, _, _) => ApprovedDistinct(e);
      case ToolCallObserved(_, _, _, _, _) => ObservedDistinct(e);
      case DecisionRecorded(_, _, _, _, _, _, _, _) => RecordedDistinct(e);
      case CallExecuted(_, _, _, _, _, _, _) => ExecutedDistinct(e);
    }
  }

  /** The whole event table is one chain per session, and it records the log. */
  lemma LogIsChained(sha: Value -> string, log: seq<Entry>, session: string)
    requires ProperLog(log)
    ensures Chain(sha, History(EventTable(sha, AppendsOf(log)), session))
    ensures Records(History(EventTable(sha, AppendsOf(log)), session), Sent(AppendsOf(log), session))
  {
    hide EventBody;
    forall a | a in AppendsOf(log) ensures WellFormed(a.body) {
      var i :| 0 <= i < |log| && a == AppendOf(log[i]);
      BodyWellFormed(log[i].event);
    }
    EverySessionIsChained(sha, AppendsOf(log), session);
  }

  // ---- Identifiers survive storage ----

  /** A value under a harmless key is found again in the stored body, redacted and with sorted keys. */
  lemma FieldSurvives(fields: seq<Field>, key: string, v: Value)
    requires WellFormed(Obj(fields)) && Field(key, v) in fields && !SensitiveKey(key)
    ensures SortKeys(Scrubbed(Obj(fields))).Obj?
    ensures Get(SortKeys(Scrubbed(Obj(fields))).fields, key) == Some(SortKeys(Scrubbed(v)))
  {
    hide SensitiveKey;
    var scrubbed := Scrubbed(Obj(fields));
    ScrubbedWellFormed(Obj(fields));
    SortKeysIdempotent(scrubbed);
    var i :| 0 <= i < |fields| && fields[i] == Field(key, v);
    assert scrubbed.fields[i] == ScrubbedField(fields[i]) == Field(key, Scrubbed(v));
    var sorted := SortedValues(scrubbed);
    assert sorted[i] == Field(scrubbed.fields[i].key, SortKeys(scrubbed.fields[i].value));
    SortFieldsPermutes(sorted);
    GetIsMembership(SortFields(sorted), Field(key, SortKeys(Scrubbed(v))));
  }

  lemma NumberSurvives(fields: seq<Field>, key: string, n: int)
    requires WellFormed(Obj(fields)) && Field(key, Num(n)) in fields && !SensitiveKey(key)
    ensures SortKeys(Scrubbed(Obj(fields))).Obj?
    ensures Get(SortKeys(Scrubbed(Obj(fields))).fields, key) == Some(Num(n))
  {
    FieldSurvives(fields, key, Num(n));
  }

  /** Where the letters stand that some identifiers lack. */
  lemma MarkerLetters()
    ensures 'u' in "authorization" && 'r' in "authorization" && 'a' in "authorization" && 'b' in "bearer"
    ensures 'c' in "client_secret" && 't' in "client_secret"
    ensures 'c' in "credential" && 't' in "credential" && 'p' in "password" && 'w' in "password" && 'p' in "private_key"
    ensures 'v' in "private_key" && 's' in "secret" && 't' in "secret" && 'c' in "secret" && 'k' in "token" && 't' in "token"
  {
    assert "authorization"[0] == 'a' && "authorization"[1] == 'u' && "authorization"[5] == 'r' && "bearer"[0] == 'b' && "client_secret"[0] == 'c';
    assert "client_secret"[5] == 't' && "credential"[0] == 'c' && "credential"[5] == 'n' && "credential"[6] == 't';
    assert "password"[0] == 'p' && "password"[4] == 'w' && "private_key"[0] == 'p' && "private_key"[3] == 'v';
    assert "secret"[0] == 's' && "secret"[2] == 'c' && "secret"[5] == 't' && "token"[0] == 't' && "token"[2] == 'k';
  }

  /** Lower-case text without these letters. */
  predicate Lacks(s: string, a: char, b: char, c: char, d: char, e: char) {
    forall x <- s :: !('A' <= x <= 'Z') && x != a && x != b && x != c && x != d && x != e
  }

  /** A key of `n` letters in lower case that lacks a letter of each marker. */
  lemma LacksEach(key: string, n: nat, a: char, b: char, c: char, d: char, e: char, f: char, g: char, h: char)
    requires |key| == n && Lacks(key, a, b, c, d, e) && Lacks(key, e, f, g, h, a)
    requires a in {'u', 'a', 'r'} && b == 'b' && c in {'c', 't'} && d in {'c', 't'}
    requires e in {'p', 'w'} && f in {'p', 'v'} && g in {'s', 't', 'c'} && h in {'k', 't'}
    ensures !SensitiveKey(key)
  {
    LacksPlainly(key, a, b, c, d, e);
    LacksPlainly(key, e, f, g, h, a);
    hide Lacks, Contains, Lower, SensitiveKey;
    MarkerLetters();
    MissingLetter(key, "authorization", a);
    MissingLetter(key, "bearer", b);
    MissingLetter(key, "client_secret", c);
    MissingLetter(key, "credential", d);
    MissingLetter(key, "password", e);
    MissingLetter(key, "private_key", f);
    MissingLetter(key, "secret", g);
    MissingLetter(key, "token", h);
    NoMarker(key);
  }

  lemma LacksPlainly(key: string, a: char, b: char, c: char, d: char, e: char)
    requires Lacks(key, a, b, c, d, e)
    ensures Lower(key) == key && a !in key && b !in key && c !in key && d !in key && e !in key
  {
    assert forall i :: 0 <= i < |key| ==> key[i] in key;
  }

  lemma NoMarker(key: string)
    requires !Contains(Lower(key), "authorization") && !Contains(Lower(key), "bearer") && !Contains(Lower(key), "client_secret")
    requires !Contains(Lower(key), "credential") && !Contains(Lower(key), "password") && !Contains(Lower(key), "private_key")
    requires !Contains(Lower(key), "secret") && !Contains(Lower(key), "token")
    ensures !SensitiveKey(key)
  {
    hide Contains;
  }

  lemma DecisionIdIsHarmless()
    ensures !SensitiveKey("decision_id")
  {
    hide SensitiveKey;
    LacksEach("decision_id", 11, 'a', 'b', 't', 't', 'p', 'p', 't', 't');
  }

  lemma DecisionIsHarmless()
    ensures !SensitiveKey("decision")
  {
    hide SensitiveKey;
    LacksEach("decision", 8, 'a', 'b', 't', 't', 'p', 'p', 't', 't');
  }

  lemma GrantIdIsHarmless()
    ensures !SensitiveKey("grant_id")
  {
    hide SensitiveKey;
    LacksEach("grant_id", 8, 'u', 'b', 'c', 'c', 'p', 'p', 's', 'k');
  }

  lemma ToolIdIsHarmless()
    ensures !SensitiveKey("tool_id")
  {
    hide SensitiveKey;
    LacksEach("tool_id", 7, 'u', 'b', 'c', 'c', 'p', 'p', 's', 'k');
  }

  lemma ResourceIdIsHarmless()
    ensures !SensitiveKey("resource_id")
  {
    hide SensitiveKey;
    LacksEach("resource_id", 11, 'a', 'b', 't', 't', 'p', 'p', 't', 't');
  }

  lemma ProofIdIsHarmless()
    ensures !SensitiveKey("proof_id")
  {
    hide SensitiveKey;
    LacksEach("proof_id", 8, 'u', 'b', 'c', 'c', 'w', 'v', 's', 't');
  }

  lemma ProofHashIsHarmless()
    ensures !SensitiveKey("proof_hash")
  {
    hide SensitiveKey;
    LacksEach("proof_hash", 10, 'u', 'b', 'c', 'c', 'w', 'v', 'c', 't');
  }

  /** What the table stores about a consumption names the grant and the decision. */
  lemma ConsumptionReadsBack(e: Event)
    requires e.GrantConsumed?
    ensures var stored := SortKeys(Scrubbed(EventBody(e)));
      && stored.Obj? && Get(stored.fields, "grant_id") == Some(Num(e.grant)) && Get(stored.fields, "decision_id") == Some(Num(e.decision))
  {
    hide SensitiveKey, SortKeys, Scrubbed, WellFormed;
    DecisionIdIsHarmless();
    GrantIdIsHarmless();
    BodyWellFormed(e);
    var fields := EventBody(e).fields;
    assert fields[0] == Field("grant_id", Num(e.grant)) && fields[3] == Field("decision_id", Num(e.decision));
    NumberSurvives(fields, "grant_id", e.grant);
    NumberSurvives(fields, "decision_id", e.decision);
  }

  /** So do the stored decision and the stored execution. */
  lemma DecisionReadsBack(e: Event)
    requires e.DecisionRecorded? || e.CallExecuted?
    ensures var stored := SortKeys(Scrubbed(EventBody(e))); stored.Obj? && Get(stored.fields, "decision_id") == Some(Num(e.decision))
  {
    hide SensitiveKey, SortKeys, Scrubbed, WellFormed;
    DecisionIdIsHarmless();
    BodyWellFormed(e);
    var fields := EventBody(e).fields;
    assert fields[if e.CallExecuted? then 2 else 0] == Field("decision_id", Num(e.decision));
    NumberSurvives(fields, "decision_id", e.decision);
  }

  // ---- What the bodies show ----

  /** The body has this entry. */
  predicate Shows(e: Event, key: string, v: Value) {
    EventBody(e).Obj? && Field(key, v) in EventBody(e).fields
  }

  /** A grant is issued with its number of uses and its time to live; a use tells how many are left. */
  lemma GrantBodies(e: Event)
    ensures e.GrantIssued? ==>
      && Shows(e, "grant_id", Num(e.grant)) && Shows(e, "scope", Str(e.scope)) && Shows(e, "issuer", Str(e.issuer))
      && Shows(e, "proof_id", Str(e.proofId)) && Shows(e, "reason", Str(e.reason))
      && Shows(e, "ttl_seconds", Num(e.ttl)) && Shows(e, "call_count_remaining", Num(e.count))
    ensures e.GrantConsumed? ==>
      && Shows(e, "grant_id", Num(e.grant)) && Shows(e, "tool_id", Str(e.tool)) && Shows(e, "resource_id", Str(e.resource))
      && Shows(e, "decision_id", Num(e.decision)) && Shows(e, "call_count_remaining", Num(e.remaining))
  {
    if e.GrantIssued? {
      var f := EventBody(e).fields;
      assert f[0] == Field("grant_id", Num(e.grant)) && f[1] == Field("scope", Str(e.scope)) && f[3] == Field("issuer", Str(e.issuer));
      assert f[4] == Field("proof_id", Str(e.proofId)) && f[5] == Field("reason", Str(e.reason));
      assert f[6] == Field("ttl_seconds", Num(e.ttl)) && f[7] == Field("call_count_remaining", Num(e.count));
    } else if e.GrantConsumed? {
      var f := EventBody(e).fields;
      assert f[0] == Field("grant_id", Num(e.grant)) && f[1] == Field("tool_id", Str(e.tool)) && f[2] == Field("resource_id", Str(e.resource));
      assert f[3] == Field("decision_id", Num(e.decision)) && f[4] == Field("call_count_remaining", Num(e.remaining));
    }
  }

  /** A request tells what is asked for and what foresaw it; its approval tells who approved and which grant followed. */
  lemma RequestBodies(e: Event)
    ensures e.RequestOpened? ==>
      && Shows(e, "request_id", Num(e.request)) && Shows(e, "tool_id", Str(e.args.tool)) && Shows(e, "scope", Str(e.args.scope))
      && Shows(e, "resource_id", Str(e.args.resource)) && Shows(e, "proof_id", Str(e.args.proofId))
      && Shows(e, "request_origin", Str(e.args.origin)) && Shows(e, "created_before_tool_call", Bool(e.args.early))
      && Shows(e, "trigger_phase", Str(e.args.phase))
    ensures e.RequestApproved? ==>
      && Shows(e, "request_id", Num(e.request)) && Shows(e, "approver_id", Str(e.approver)) && Shows(e, "grant_id", Num(e.grant))
      && Shows(e, "scope", Str(e.scope)) && Shows(e, "resource_id", Str(e.resource))
    ensures e.ToolCallObserved? ==>
      Shows(e, "request_id", Num(e.request)) && Shows(e, "request_origin", Str(e.origin)) && Shows(e, "created_before_tool_call", Bool(e.early))
  {
    if e.RequestOpened? {
      OpenedShows(e);
    } else if e.RequestApproved? {
      var f := EventBody(e).fields;
      assert f[0] == Field("request_id", Num(e.request)) && f[1] == Field("approver_id", Str(e.approver)) && f[2] == Field("grant_id", Num(e.grant));
      assert f[3] == Field("scope", Str(e.scope)) && f[4] == Field("resource_id", Str(e.resource));
    } else if e.ToolCallObserved? {
      var f := EventBody(e).fields;
      assert f[0] == Field("request_id", Num(e.request)) && f[3] == Field("request_origin", Str(e.origin));
      assert f[4] == Field("created_before_tool_call", Bool(e.early));
    }
  }

  lemma OpenedShows(e: Event)
    requires e.RequestOpened?
    ensures Shows(e, "request_id", Num(e.request)) && Shows(e, "tool_id", Str(e.args.tool)) && Shows(e, "scope", Str(e.args.scope))
    ensures Shows(e, "resource_id", Str(e.args.resource)) && Shows(e, "proof_id", Str(e.args.proofId))
    ensures Shows(e, "request_origin", Str(e.args.origin)) && Shows(e, "created_before_tool_call", Bool(e.args.early))
    ensures Shows(e, "trigger_phase", Str(e.args.phase))
  {
    var f := EventBody(e).fields;
    assert f[0] == Field("request_id", Num(e.request)) && f[1] == Field("tool_id", Str(e.args.tool)) && f[2] == Field("scope", Str(e.args.scope));
    assert f[3] == Field("resource_id", Str(e.args.resource)) && f[5] == Field("proof_id", Str(e.args.proofId));
    assert f[10] == Field("trigger_phase", Str(e.args.phase));
    assert f[6] == Field("request_origin", Str(e.args.origin)) && f[9] == Field("created_before_tool_call", Bool(e.args.early));
  }

  /** A decision tells its check, the check's state and its snapshot; an execution tells its check and how it went. */
  lemma CallBodies(e: Event)
    ensures e.DecisionRecorded? ==>
      && Shows(e, "decision_id", Num(e.decision)) && Shows(e, "check_id", Num(e.check)) && Shows(e, "check_state", Str(e.checkState))
      && Shows(e, "snapshot_id", Num(e.snapshot)) && Shows(e, "proof_hash", Str(e.proofHash))
    ensures e.CallExecuted? ==>
      && Shows(e, "decision_id", Num(e.decision)) && Shows(e, "check_id", Num(e.check)) && Shows(e, "status", Str(e.status))
      && Shows(e, "mode", Str(e.mode))
  {
    hide DecisionText;
    if e.DecisionRecorded? {
      var f := EventBody(e).fields;
      assert f[0] == Field("decision_id", Num(e.decision)) && f[1] == Field("check_id", Num(e.check));
      assert f[2] == Field("check_state", Str(e.checkState)) && f[6] == Field("snapshot_id", Num(e.snapshot));
      assert f[7] == Field("proof_hash", Str(e.proofHash));
    } else if e.CallExecuted? {
      var f := EventBody(e).fields;
      assert f[2] == Field("decision_id", Num(e.decision)) && f[3] == Field("check_id", Num(e.check));
      assert f[5] == Field("status", Str(e.status)) && f[6] == Field("mode", Str(e.mode));
    }
  }
}
