/**
 * What the single steps of a tool call do (platform/gateway_service.py, platform/mcp/handlers.py), told in the rows and
 * the names that they leave: who is answered at all, what is announced, admitted, consumed, executed and redacted.
 */
module GatewaySteps {
  import opened Wrappers
  import opened Text
  import opened Json
  import opened Redaction
  import opened PolicyTable
  import opened PolicyCompile
  import opened PolicyDecide
  import opened GraphFallback
  import opened GatewayContext
  import opened Ledger
  import opened LedgerCases
  import opened LedgerEvents
  import opened Gateway
  import GatewaySafety
  import GraphLook
  import Broker = CredentialBroker
  import Leases = GatewayLeases
  import Life = LeaseLife

  // ---- Who is answered ----

  /** The agent is active, and it is the one that the session was opened for. */
  ghost predicate OwnAgent(cfg: Config, q: Question) {
    q.agentActive && exists s :: s in cfg.catalog.sessions && s.session == q.session && s.agent == q.agent
  }

  /** The tables know the tool and the resource. */
  ghost predicate KnownCall(cfg: Config, q: Question) {
    && (exists r :: r in cfg.catalog.resources && r.resource == q.resource)
    && (exists t :: t in cfg.catalog.toolScopes && t.tool == q.tool)
  }

  /** Whoever is not the session's active agent gets no answer, and changes nothing. */
  lemma StrangersChangeNothing(cfg: Config, w: World, q: Question, predictions: seq<Prediction>)
    requires !OwnAgent(cfg, q)
    ensures RunAuthorize(cfg, w, q) == (w, None)
    ensures RunPreflight(cfg, w, q.session, q.agent, q.agentActive, predictions) == w
  {
    hide Gateway.Prepared, Look, Decided, PreflightOpened, Anticipate;
  }

  predicate Untouched(w: World, t: World, auth: Option<Auth>) {
    auth.None? && t.store == w.store && t.checks == w.checks && t.calls == w.calls
  }

  /** An unknown tool or resource gets no answer, and neither the store nor the checks change. */
  lemma UnknownIsNotDecided(cfg: Config, w: World, q: Question)
    requires !KnownCall(cfg, q)
    ensures var (t, auth) := RunAuthorize(cfg, w, q); Untouched(w, t, auth)
  {
    hide Look, Decided, SaveHits, HitsFor;
    var s := FindSession(cfg.catalog, q.session);
    if s.Some? {
      var ready := Gateway.Prepared(cfg, w, s.value);
      GraphLook.LookFinds(ready.graph, q.session, q.tool, q.resource, ready.store.now, cfg.parse);
    }
  }

  // ---- Announcing a call ----

  predicate Mentions(e: Entry, session: string, name: string, tool: string, resource: string) {
    && e.session == session && e.event.Other? && e.event.eventType == name && e.event.body.Obj?
    && Field("tool_id", Str(tool)) in e.event.body.fields && Field("resource_id", Str(resource)) in e.event.body.fields
  }

  /** The two entries that precede everything else, and then the mark on the longest waiting request. */
  ghost predicate AnnouncedAs(s: Store, t: Store, q: Question) {
    exists mid: Store :: LoggedTwice(s, mid, q) && MarkedFor(mid, t, q)
  }

  predicate LoggedTwice(s: Store, mid: Store, q: Question) {
    && mid == s.(log := mid.log) && |mid.log| == |s.log| + 2 && mid.log[..|s.log|] == s.log
    && Mentions(mid.log[|s.log|], q.session, "hook_pre_tool_use_checked", q.tool, q.resource)
    && Mentions(mid.log[|s.log| + 1], q.session, "tool_call_requested", q.tool, q.resource)
  }

  ghost predicate MarkedFor(mid: Store, t: Store, q: Question) {
    if forall r :: r in mid.requests ==> !AwaitsCall(r, q.session, q.tool, q.resource) then t == mid
    else exists i: nat :: i < |mid.requests| && MarkedEarliest(mid, t, i, q.session, q.tool, q.resource)
  }

  lemma EventsMention(q: Question)
    ensures Mentions(Entry(q.session, HookChecked(q)), q.session, "hook_pre_tool_use_checked", q.tool, q.resource)
    ensures Field("secret_exposed_to_agent", Bool(false)) in HookChecked(q).body.fields
    ensures Mentions(Entry(q.session, CallRequested(q)), q.session, "tool_call_requested", q.tool, q.resource)
  {
    var hook, asked := HookChecked(q).body.fields, CallRequested(q).body.fields;
    assert hook[1] == Field("tool_id", Str(q.tool)) && hook[2] == Field("resource_id", Str(q.resource));
    assert hook[6] == Field("secret_exposed_to_agent", Bool(false));
    assert asked[0] == Field("tool_id", Str(q.tool)) && asked[1] == Field("resource_id", Str(q.resource));
  }

  /** Every call, also one that is refused, is announced before anything is decided. */
  lemma CallIsAnnounced(w: World, q: Question)
    ensures AnnouncedAs(w.store, Announced(w, q).store, q)
    ensures Announced(w, q) == w.(store := Announced(w, q).store)
  {
    hide Mentions, HookChecked, CallRequested, MarkToolCallSeen, AwaitsCall, MarkedEarliest;
    EventsMention(q);
    var mid := Log(Log(w.store, q.session, HookChecked(q)), q.session, CallRequested(q));
    ToolCallMarksEarliest(mid, q.session, q.tool, q.resource);
    assert LoggedTwice(w.store, mid, q);
    assert MarkedFor(mid, Announced(w, q).store, q);
  }

  // ---- Admitting a call ----

  /** The last entry refuses the call: with its decision, and with the error that the agent is shown. */
  predicate RefusedLast(t: Store, q: Question, auth: Auth, error: string) {
    && t.log != []
    && Mentions(t.log[|t.log| - 1], q.session, "denial_returned", q.tool, q.resource)
    && Field("decision_id", Num(auth.decision)) in t.log[|t.log| - 1].event.body.fields
    && Field("error", Str(error)) in t.log[|t.log| - 1].event.body.fields
  }

  /** An allowed or auto-approved call is under way without a grant; any other is refused with a telling error. */
  predicate BegunAs(w: World, t: World, q: Question, auth: Option<Auth>) {
    if auth.None? then t.calls == w.calls
    else match auth.value.verdict
      case Allow => t.calls == w.calls[auth.value.decision := Call(q.session, q.tool, q.resource, auth.value, None)]
      case AutoApprove => t.calls == w.calls[auth.value.decision := Call(q.session, q.tool, q.resource, auth.value, None)]
      case EscalateHuman => t.calls == w.calls && RefusedLast(t.store, q, auth.value, "scope_required")
      case Repair => t.calls == w.calls && RefusedLast(t.store, q, auth.value, "repair_required")
      case Deny => t.calls == w.calls && RefusedLast(t.store, q, auth.value, "policy_denied")
  }

  lemma DenialMentions(s: Store, q: Question, auth: Auth)
    ensures RefusedLast(Log(s, q.session, DenialReturned(q, auth)), q, auth, ErrorFor(auth.verdict))
  {
    hide ErrorFor, DecisionText;
    var f := DenialReturned(q, auth).body.fields;
    assert f[0] == Field("tool_id", Str(q.tool)) && f[1] == Field("resource_id", Str(q.resource));
    assert f[2] == Field("decision_id", Num(auth.decision)) && f[5] == Field("error", Str(ErrorFor(auth.verdict)));
  }

  /** How a call begins: admitted exactly when its answer is executable, and refused with an error of its own otherwise. */
  lemma CallBegins(cfg: Config, w: World, q: Question)
    ensures var (t, auth) := BeginCall(cfg, w, q); BegunAs(w, t, q, auth)
  {
    hide RunAuthorize, Announced, RefusedLast, DenialReturned;
    CallIsAnnounced(w, q);
    Leases.AskedQuietly(cfg, Announced(w, q), q);
    var (w1, auth) := RunAuthorize(cfg, Announced(w, q), q);
    if auth.Some? {
      DenialMentions(w1.store, q, auth.value);
    }
  }

  // ---- Consuming a grant ----

  /** The call takes a use of a newest usable grant and holds it from then on. */
  ghost predicate TakesGrant(cfg: Config, w: World, t: World, d: nat, i: nat)
    requires d in w.calls
  {
    var c := w.calls[d];
    && UseTaken(w.store, t.store, cfg.catalog.toolScopes, c.session, c.tool, c.resource, d, i)
    && t == w.(store := t.store, calls := w.calls[d := c.(grant := Some(w.store.grants[i].id))])
  }

  ghost predicate NothingUsable(cfg: Config, w: World, c: Call) {
    forall g :: g in w.store.grants ==> !UsableFor(g, cfg.catalog.toolScopes, c.session, c.tool, c.resource, w.store.now)
  }

  ghost predicate ConsumptionSettled(cfg: Config, w: World, t: World, d: nat) {
    if d !in w.calls || w.calls[d].grant.Some? then t == w
    else if NothingUsable(cfg, w, w.calls[d]) then t == w.(calls := w.calls - {d})
    else exists i: nat :: TakesGrant(cfg, w, t, d, i)
  }

  lemma CallConsumes(cfg: Config, w: World, d: nat, tie: nat)
    ensures ConsumptionSettled(cfg, w, ConsumeForCall(cfg, w, d, tie), d)
  {
    if d in w.calls && w.calls[d].grant.None? {
      var c := w.calls[d];
      var (store, i) := Consume(w.store, cfg.catalog.toolScopes, c.session, c.tool, c.resource, d, tie);
      ConsumptionTakesNewest(w.store, cfg.catalog.toolScopes, c.session, c.tool, c.resource, d, tie);
      hide Consume, UsableFor;
      if i.Some? {
        assert TakesGrant(cfg, w, ConsumeForCall(cfg, w, d, tie), d, i.value);
      }
    }
  }

  /** A call under way consumes once: from a newest usable grant, or, if there is none, it is over. */
  lemma ConsumesExactlyWhen(cfg: Config, w: World, d: nat, tie: nat)
    ensures ConsumptionSettled(cfg, w, Apply(cfg, w, ConsumeStep(d, tie)), d)
  {
    hide ConsumptionSettled, RunPreflight, RunAuthorize, BeginCall, ConsumeForCall, ExecuteForCall, Approve;
    CallConsumes(cfg, w, d, tie);
  }

  // ---- The trail of a lease ----

  predicate TellsOf(e: Event, name: string, c: Call) {
    && e.Other? && e.eventType == name && e.body.Obj? && Field("decision_id", Num(c.auth.decision)) in e.body.fields
    && Field("tool_id", Str(c.tool)) in e.body.fields && Field("resource_id", Str(c.resource)) in e.body.fields
  }

  predicate TrailNamed(trail: seq<Event>, names: seq<string>, c: Call) {
    |trail| == |names| && forall n :: 0 <= n < |names| ==> TellsOf(trail[n], names[n], c)
  }

  lemma LeaseEventTells(c: Call, name: string)
    ensures TellsOf(LeaseEvent(c, name), name, c)
  {
    var f := LeaseEvent(c, name).body.fields;
    assert f[0] == Field("decision_id", Num(c.auth.decision)) && f[1] == Field("tool_id", Str(c.tool));
    assert f[2] == Field("resource_id", Str(c.resource));
  }

  /** Nothing without a credential; otherwise the selection, and how far the lease got. */
  lemma TrailTells(cfg: Config, c: Call, scope: string, o: Outside)
    ensures TrailNamed(LeaseTrail(cfg, c, scope, o), NamesOfTrail(cfg, c, scope, o), c)
  {
    hide TellsOf, LeaseEvent, Broker.Mintable, LeaseRequest, Life.Offers, FindBinding;
    LeaseEventTells(c, "credential_binding_selected");
    LeaseEventTells(c, "credential_lease_blocked");
    LeaseEventTells(c, "credential_lease_minted");
    LeaseEventTells(c, "credential_injected_by_gateway");
    LeaseEventTells(c, "credential_provider_resolution_failed");
    var b := FindBinding(cfg.bindings, c.tool, scope, c.resource);
    if b.Some? {
      Leases.MintableIff(c, scope, b.value, o.readiness);
    }
  }

  ghost function NamesOfTrail(cfg: Config, c: Call, scope: string, o: Outside): seq<string> {
    var b := FindBinding(cfg.bindings, c.tool, scope, c.resource);
    if b.None? then []
    else if !Life.Offers(o.readiness, b.value.injectionMode) then ["credential_binding_selected", "credential_lease_blocked"]
    else if o.resolves then ["credential_binding_selected", "credential_lease_minted", "credential_injected_by_gateway"]
    else ["credential_binding_selected", "credential_lease_minted", "credential_provider_resolution_failed"]
  }

  /** The gateway asks for a lease for one use within a quarter of an hour, for this call and its binding. */
  lemma LeaseIsForOneUse(c: Call, scope: string, b: BindingRec)
    ensures var r := LeaseRequest(c, scope, b);
      && r.ttl == 900 && r.maxUses == 1 && !r.wouldExpose && r.session == c.session && r.tool == c.tool && r.scope == scope
      && r.resource == c.resource && r.binding.credentialRef == b.credentialRef && r.binding.provider == b.provider
      && r.binding.credentialClass == b.credentialClass && r.binding.injectionMode == b.injectionMode
  {
  }

  // ---- What an execution logs ----

  /** Some place in the tree is blanked, or the payload says that instructions were taken out of it. */
  ghost predicate SomethingHidden(payload: Value) {
    (exists p :: Cut(payload, p)) || UntrustedRedacted(payload)
  }

  /** One entry tells of a redaction, with the paths. */
  predicate RedactionTold(e: Entry, c: Call) {
    && Mentions(e, c.session, "output_redacted", c.tool, c.resource)
    && Field("proof_id", Str(c.auth.proofHash)) in e.event.body.fields
  }

  predicate ExecutionTold(e: Entry, c: Call) {
    && e.session == c.session && e.event.CallExecuted? && e.event.decision == c.auth.decision && e.event.check == c.auth.check
    && e.event.tool == c.tool && e.event.resource == c.resource && e.event.proofId == c.auth.proofHash
  }

  /** The execution is logged first; a second entry follows exactly when something was hidden from the agent. */
  ghost predicate ExecutionLogged(s: Store, t: Store, c: Call, payload: Value) {
    && s.log <= t.log && t == s.(log := t.log) && |t.log| == |s.log| + (if SomethingHidden(payload) then 2 else 1)
    && ExecutionTold(t.log[|s.log|], c) && (SomethingHidden(payload) ==> RedactionTold(t.log[|s.log| + 1], c))
  }

  lemma HiddenIff(payload: Value)
    ensures RedactedFields(payload) != [] <==> SomethingHidden(payload)
  {
    hide Cut, UntrustedRedacted, Cuts;
    CutsAreExact(payload);
    if |Cuts(payload)| > 0 {
      assert Cut(payload, Cuts(payload)[0]);
    } else {
      assert forall p :: p !in Cuts(payload);
    }
  }

  lemma RedactionMentions(c: Call, redacted: seq<string>)
    ensures RedactionTold(Entry(c.session, OutputRedacted(c, redacted)), c)
  {
    hide Strings;
    var f := OutputRedacted(c, redacted).body.fields;
    assert f[0] == Field("tool_id", Str(c.tool)) && f[1] == Field("resource_id", Str(c.resource));
    assert f[3] == Field("proof_id", Str(c.auth.proofHash));
  }

  lemma ExecutionIsLogged(s: Store, c: Call, payload: Value)
    ensures ExecutionLogged(s, LogExecution(s, c, payload), c, payload)
  {
    hide RedactedFields, SomethingHidden, OutputRedacted, TextAt;
    HiddenIff(payload);
    RedactionMentions(c, RedactedFields(payload));
  }

  /** The status and the mode of an execution are those of the payload, or "ok" and "mock". */
  lemma ExecutionStatus(c: Call, payload: Value)
    ensures (!payload.Obj? || forall f :: f in payload.fields ==> f.key != "status") ==> Executed(c, payload).status == "ok"
    ensures (!payload.Obj? || forall f :: f in payload.fields ==> f.key != "mode") ==> Executed(c, payload).mode == "mock"
  {
    var r := Scrubbed(payload);
    if r.Obj? {
      forall f | f in r.fields ensures exists g :: g in payload.fields && g.key == f.key {
        var n :| 0 <= n < |r.fields| && r.fields[n] == f;
        assert payload.fields[n].key == f.key;
      }
    }
  }

  /** What counts as false in Python. */
  predicate Empty(v: Value) {
    v == Null || v == Bool(false) || v == Num(0) || v == Str("") || v == Arr([]) || v == Obj([])
  }

  lemma RedactionKeepsEmpty(v: Value)
    ensures Truthy(Scrubbed(v)) <==> !Empty(v)
  {
    hide SensitiveKey;
    match v
    case Arr(items) => assert |Scrubbed(v).items| == |items|;
    case Obj(fields) => assert |Scrubbed(v).fields| == |fields|;
    case Str(s) => assert s == "" ==> Lower(s) == "" && !SensitiveText(s);
    case _ =>
  }

  /** The flag of the payload that tells of removed instructions. */
  lemma UntrustedIff(payload: Value)
    requires payload.Obj? ==> DistinctKeys(payload.fields)
    ensures UntrustedRedacted(payload)
       <==> payload.Obj? && exists f :: f in payload.fields && f.key == "untrusted_instructions_redacted" && !Empty(f.value)
  {
    hide SensitiveText, SensitiveKey;
    if payload.Obj? {
      forall f | f in payload.fields && f.key == "untrusted_instructions_redacted"
        ensures UntrustedRedacted(payload) <==> !Empty(f.value)
      {
        GetIsMembership(payload.fields, f);
        RedactionKeepsEmpty(f.value);
        hide Truthy, Scrubbed, Empty;
      }
    }
  }

  lemma StatusIsHarmless()
    ensures !SensitiveKey("status") && !SensitiveKey("mode")
  {
    hide SensitiveKey;
    LacksEach("status", 6, 'r', 'b', 'c', 'c', 'p', 'p', 'c', 'k');
    LacksEach("mode", 4, 'a', 'b', 'c', 'c', 'p', 'p', 's', 't');
  }

  /** The status and the mode that a payload gives are logged, unless they read as secrets. */
  lemma StatusIsLogged(c: Call, payload: Value, key: string, text: string)
    requires payload.Obj? && DistinctKeys(payload.fields) && Field(key, Str(text)) in payload.fields && !TextIsSecret(text)
    ensures key == "status" ==> Executed(c, payload).status == text
    ensures key == "mode" ==> Executed(c, payload).mode == text
  {
    hide SensitiveKey;
    StatusIsHarmless();
    var r := Scrubbed(payload);
    var n :| 0 <= n < |payload.fields| && payload.fields[n] == Field(key, Str(text));
    if key == "status" || key == "mode" {
      assert r.fields[n] == ScrubbedField(payload.fields[n]) == Field(key, Str(text));
      GetIsMembership(r.fields, Field(key, Str(text)));
    }
  }

  // ---- Where executions come from ----

  /** Something was executed since. */
  ghost predicate Ran(before: Store, after: Store) {
    exists k :: |before.log| <= k < |after.log| && after.log[k].event.CallExecuted?
  }

  /** The log grew, and nothing was executed. */
  ghost predicate OnlyTold(before: Store, after: Store) {
    before.log <= after.log && !Ran(before, after)
  }

  lemma RanLater(a: Store, b: Store, c: Store)
    requires OnlyTold(a, b) && b.log <= c.log
    ensures a.log <= c.log && (Ran(a, c) <==> Ran(b, c))
  {
    assert b.log == c.log[..|b.log|];
    forall k | |a.log| <= k < |b.log| ensures !c.log[k].event.CallExecuted? {
      assert b.log[k] == c.log[k];
    }
  }

  lemma QuietOnlyTells(s: Store, t: Store)
    requires GatewaySafety.QuietGrowth(s, t)
    ensures OnlyTold(s, t)
  {
  }

  /** Announcing, deciding and refusing execute nothing. */
  lemma BeginningRunsNothing(cfg: Config, w: World, q: Question)
    ensures OnlyTold(w.store, BeginCall(cfg, w, q).0.store)
  {
    hide RunAuthorize, Announced, DenialReturned, OnlyTold, GatewaySafety.QuietGrowth;
    var w0 := Announced(w, q);
    GatewaySafety.AnnouncedIsQuiet(w, q);
    Leases.AskedQuietly(cfg, w0, q);
    var (w1, auth) := RunAuthorize(cfg, w0, q);
    GatewaySafety.QuietTransitive(w.store, w0.store, w1.store);
    if auth.Some? && !Executable(auth.value.verdict) {
      GatewaySafety.DenialIsQuiet(q, auth.value);
      GatewaySafety.LogIsQuiet(w1.store, q.session, DenialReturned(q, auth.value));
      GatewaySafety.QuietTransitive(w.store, w1.store, BeginCall(cfg, w, q).0.store);
    }
    QuietOnlyTells(w.store, BeginCall(cfg, w, q).0.store);
  }

  /** Consuming a grant executes nothing. */
  lemma ConsumingRunsNothing(cfg: Config, w: World, d: nat, tie: nat)
    ensures OnlyTold(w.store, ConsumeForCall(cfg, w, d, tie).store)
  {
    hide Select;
  }

  /** A lease executes nothing; an execution does. */
  lemma LeasingRunsNothing(cfg: Config, s: Store, c: Call, scope: string, o: Outside)
    ensures OnlyTold(s, LogAll(s, c.session, LeaseTrail(cfg, c, scope, o)))
  {
    hide LeaseTrail, LogAll;
    var trail := LeaseTrail(cfg, c, scope, o);
    Leases.LogAllAdds(s, c.session, trail);
    Leases.TrailExecutesNothing(cfg, c, scope, o);
    var t := LogAll(s, c.session, trail);
    forall k | |s.log| <= k < |t.log| ensures !t.log[k].event.CallExecuted? {
      assert t.log[|s.log| + (k - |s.log|)] == Entry(c.session, trail[k - |s.log|]);
      assert trail[k - |s.log|] in trail;
    }
  }

  lemma ExecutingRuns(s: Store, c: Call, payload: Value)
    ensures s.log <= LogExecution(s, c, payload).log && Ran(s, LogExecution(s, c, payload))
  {
    hide SomethingHidden, RedactionTold;
    ExecutionIsLogged(s, c, payload);
    hide LogExecution;
    assert LogExecution(s, c, payload).log[|s.log|].event.CallExecuted?;
  }
}
