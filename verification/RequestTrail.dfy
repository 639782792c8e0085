/**
 * What the stored event table shows of access requests, over every run of the store (platform/dolt_store.py): nothing is
 * approved, and no tool call is observed, for a request that was not opened before.
 */
module RequestTrail {
  import opened Wrappers
  import opened Json
  import opened Canonical
  import opened Redaction
  import opened AuditLog
  import opened GraphFallback
  import opened Ledger
  import opened LedgerEvents
  import opened LedgerInvariant
  import opened GatewayHistory
  import opened GatewayTrail

  predicate Opens(e: Entry, request: nat) {
    e.event.RequestOpened? && e.event.request == request
  }

  /** The entry speaks of a request that has to be there. */
  predicate Concerns(e: Entry, request: nat) {
    (e.event.RequestApproved? || e.event.ToolCallObserved?) && e.event.request == request
  }

  /** Before position `k` the request was opened in the session. */
  ghost predicate OpenedBefore(log: seq<Entry>, k: nat, session: string, request: nat) {
    exists j :: 0 <= j < k && j < |log| && log[j].session == session && Opens(log[j], request)
  }

  ghost predicate AllOpened(s: Store) {
    && (forall i :: 0 <= i < |s.requests| ==> OpenedBefore(s.log, |s.log|, s.requests[i].session, s.requests[i].id))
    && (forall k: nat, r :: k < |s.log| && Concerns(s.log[k], r) ==> OpenedBefore(s.log, k, s.log[k].session, r))
  }

  lemma BeforeSurvives(log: seq<Entry>, more: seq<Entry>, k: nat, n: nat, session: string, request: nat)
    requires log <= more && k <= n && OpenedBefore(log, k, session, request)
    ensures OpenedBefore(more, n, session, request)
  {
    var j :| 0 <= j < k && j < |log| && log[j].session == session && Opens(log[j], request);
    assert more[j] == log[j];
  }

  /** Growth by one entry that concerns only requests of its session that are there. */
  lemma EntryKeepsOpened(s: Store, t: Store, e: Entry)
    requires AllOpened(s) && t.log == s.log + [e]
    requires forall r :: Concerns(e, r) ==> OpenedBefore(s.log, |s.log|, e.session, r)
    requires forall i :: 0 <= i < |t.requests| ==>
               (i < |s.requests| && t.requests[i].id == s.requests[i].id && t.requests[i].session == s.requests[i].session)
               || (t.requests[i].session == e.session && Opens(e, t.requests[i].id))
    ensures AllOpened(t)
  {
    hide OpenedBefore;
    forall i | 0 <= i < |t.requests| ensures OpenedBefore(t.log, |t.log|, t.requests[i].session, t.requests[i].id) {
      if i < |s.requests| && t.requests[i].id == s.requests[i].id && t.requests[i].session == s.requests[i].session {
        BeforeSurvives(s.log, t.log, |s.log|, |t.log|, s.requests[i].session, s.requests[i].id);
      } else {
        OpenedNow(t.log, t.requests[i].session, t.requests[i].id);
      }
    }
    forall k: nat, r | k < |t.log| && Concerns(t.log[k], r) ensures OpenedBefore(t.log, k, t.log[k].session, r) {
      if k < |s.log| {
        assert t.log[k] == s.log[k];
        BeforeSurvives(s.log, t.log, k, k, t.log[k].session, r);
      } else {
        BeforeSurvives(s.log, t.log, |s.log|, k, e.session, r);
      }
    }
  }

  lemma OpenedNow(log: seq<Entry>, session: string, request: nat)
    requires log != [] && log[|log| - 1].session == session && Opens(log[|log| - 1], request)
    ensures OpenedBefore(log, |log|, session, request)
  {
  }

  /** Rows that keep their ids and sessions, and no new entry. */
  lemma RowsKeepOpened(s: Store, t: Store)
    requires AllOpened(s) && t.log == s.log && |t.requests| == |s.requests|
    requires forall i :: 0 <= i < |t.requests| ==> t.requests[i].id == s.requests[i].id && t.requests[i].session == s.requests[i].session
    ensures AllOpened(t)
  {
  }

  /** Besides the store's own calls, the gateway logs decisions, executions, and events under names of their own. */
  predicate OwnStep(step: Step) {
    step.LogStep? ==> (step.event.Other? && OwnName(step.event) && Proper(step.event)) || step.event.DecisionRecorded? || step.event.CallExecuted?
  }

  lemma StepKeepsOpened(s: Store, scopes: seq<ToolScopeRec>, step: Step)
    requires AllOpened(s) && OwnStep(step)
    ensures AllOpened(Apply(s, scopes, step))
  {
    hide AllOpened, OpenedBefore, Select;
    var t := Apply(s, scopes, step);
    match step {
      case IssueStep(session, scope, resource, proofId, reason) => EntryKeepsOpened(s, t, t.log[|s.log|]);
      case ConsumeStep(session, tool, resource, decision, tie) =>
        if t.log != s.log {
          EntryKeepsOpened(s, t, t.log[|s.log|]);
        }
      case RequestStep(args) =>
        if PendingIndex(s.requests, args).Some? {
          RowsKeepOpened(s, t);
        } else {
          EntryKeepsOpened(s, t, t.log[|s.log|]);
        }
      case ApproveStep(id, approver) =>
        if t != s {
          var i := RequestIndex(s.requests, id).value;
          KnownIsOpened(s, i);
          EntryKeepsOpened(s, t, t.log[|s.log|]);
        }
      case SeenStep(session, tool, resource) =>
        if t != s {
          var i := EarliestUnseen(s.requests, session, tool, resource).value;
          KnownIsOpened(s, i);
          EntryKeepsOpened(s, t, t.log[|s.log|]);
        }
      case LogStep(session, event) =>
        if t != s {
          EntryKeepsOpened(s, t, Entry(session, event));
        }
      case TickStep(seconds) => RowsKeepOpened(s, t);
    }
  }

  lemma KnownIsOpened(s: Store, i: nat)
    requires AllOpened(s) && i < |s.requests|
    ensures OpenedBefore(s.log, |s.log|, s.requests[i].session, s.requests[i].id)
  {
  }

  lemma StepKeepsNames(s: Store, scopes: seq<ToolScopeRec>, step: Step)
    requires OwnStep(step) && OwnNames(s.log) && ProperLog(s.log)
    ensures OwnNames(Apply(s, scopes, step).log) && ProperLog(Apply(s, scopes, step).log)
  {
    hide Select, EarliestUnseen, PendingIndex, RequestIndex;
    var t := Apply(s, scopes, step);
    assert t.log == s.log || (s.log <= t.log && |t.log| == |s.log| + 1 && OwnName(t.log[|s.log|].event) && Proper(t.log[|s.log|].event));
  }

  lemma {:induction false} EveryRunOpensFirst(s: Store, scopes: seq<ToolScopeRec>, steps: seq<Step>)
    requires Seeded(s) && forall step :: step in steps ==> OwnStep(step)
    ensures var t := Run(s, scopes, steps); AllOpened(t) && OwnNames(t.log) && ProperLog(t.log)
  {
    hide Apply, AllOpened, OwnNames, ProperLog, OwnStep;
    if steps == [] {
      NothingIsOpen(s);
    } else {
      var n := |steps| - 1;
      forall step | step in steps[..n] ensures OwnStep(step) {
        assert step in steps;
      }
      EveryRunOpensFirst(s, scopes, steps[..n]);
      assert steps[n] in steps;
      StepKeepsOpened(Run(s, scopes, steps[..n]), scopes, steps[n]);
      StepKeepsNames(Run(s, scopes, steps[..n]), scopes, steps[n]);
    }
  }

  lemma NothingIsOpen(s: Store)
    requires Seeded(s)
    ensures AllOpened(s) && OwnNames(s.log) && ProperLog(s.log)
  {
  }

  // ---- The stored rows ----

  lemma RequestIdIsHarmless()
    ensures !SensitiveKey("request_id")
  {
    hide SensitiveKey;
    LacksEach("request_id", 10, 'a', 'b', 'c', 'c', 'p', 'p', 'c', 'k');
  }

  lemma TriggerPhaseIsHarmless()
    ensures !SensitiveKey("trigger_phase")
  {
    hide SensitiveKey;
    LacksEach("trigger_phase", 13, 'u', 'b', 'c', 'c', 'w', 'v', 'c', 'k');
  }

  /** The row tells of an opened request: of one that a preflight sent, or of one that a tool call created. */
  predicate OpeningRow(row: EventRow, request: Value) {
    && At(row, "request_id") == Some(request)
    && row.eventType == if At(row, "trigger_phase") == Some(Str("preflight")) then "access_request_sent" else "access_request_created"
  }

  /** The phase is stored as it is, unless it reads as a secret; then it is no preflight. */
  lemma PhaseStored(phase: string)
    ensures StoredText(phase) == Str("preflight") <==> phase == "preflight"
  {
    hide SensitiveText;
    assert ' ' !in "preflight" && '/' !in "preflight";
    WordIsPlain("preflight");
    assert "[redacted]"[0] == '[' && "preflight"[0] == 'p';
  }

  lemma OpenedRow(row: EventRow, e: Entry)
    requires RowTells(row, e) && e.event.RequestOpened?
    ensures OpeningRow(row, Num(e.event.request))
  {
    hide Scrubbed, SortKeys, SensitiveKey;
    RequestIdIsHarmless();
    TriggerPhaseIsHarmless();
    PlainValues(e.event.request, "");
    PhaseStored(e.event.args.phase);
    FieldStored(row, e, "request_id", Num(e.event.request), 0);
    FieldStored(row, e, "trigger_phase", Str(e.event.args.phase), 10);
  }

  lemma ConcernedRow(row: EventRow, e: Entry)
    requires RowTells(row, e) && (e.event.RequestApproved? || e.event.ToolCallObserved?)
    ensures At(row, "request_id") == Some(Num(e.event.request))
  {
    hide Scrubbed, SortKeys, SensitiveKey;
    RequestIdIsHarmless();
    PlainValues(e.event.request, "");
    FieldStored(row, e, "request_id", Num(e.event.request), 0);
  }

  lemma NamedConcerns(e: Event)
    requires OwnName(e) && EventType(e) in {"access_request_approved", "anticipated_request_observed_tool_call"}
    ensures e.RequestApproved? || e.ToolCallObserved?
  {
  }

  /** The row comes after one that opens the request that it is about. */
  ghost predicate RowOpened(h: seq<EventRow>, n: nat)
    requires n < |h|
  {
    exists m: nat, request :: m < n && OpeningRow(h[m], request) && At(h[n], "request_id") == Some(request)
  }

  ghost predicate RowsOpened(h: seq<EventRow>) {
    forall n :: 0 <= n < |h| && h[n].eventType in {"access_request_approved", "anticipated_request_observed_tool_call"} ==> RowOpened(h, n)
  }

  lemma StoreOpensFirst(sha: Value -> string, s: Store, session: string)
    requires AllOpened(s) && OwnNames(s.log) && ProperLog(s.log)
    ensures RowsOpened(Rows(sha, s.log, session))
  {
    hide EventTable, History, Rank, EventType, EventBody, Scrubbed, SortKeys, At, RowTells, OpeningRow;
    var h, log := Rows(sha, s.log, session), s.log;
    forall n | 0 <= n < |h| && h[n].eventType in {"access_request_approved", "anticipated_request_observed_tool_call"}
      ensures RowOpened(h, n)
    {
      var k := EntryBehind(sha, log, session, n);
      NameOfRow(h[n], log[k]);
      NamedConcerns(log[k].event);
      ConcernedRow(h[n], log[k]);
      assert Concerns(log[k], log[k].event.request);
      var j :| 0 <= j < k && log[j].session == session && Opens(log[j], log[k].event.request);
      RowsTell(sha, log, session);
      RankIsMonotone(log, session, j, k);
      OpenedRow(h[Rank(log, session, j)], log[j]);
    }
  }

  lemma NameOfRow(row: EventRow, e: Entry)
    requires RowTells(row, e)
    ensures row.eventType == EventType(e.event)
  {
  }

  /**
   * Over every run of the store, in the table that is stored and hashed: before an access request is approved, and before
   * a tool call is observed for one, the same session's history tells that the request was opened, as "sent" if a
   * preflight opened it and as "created" otherwise.
   */
  lemma EveryStoredRequestWasOpened(sha: Value -> string, s: Store, scopes: seq<ToolScopeRec>, steps: seq<Step>, session: string)
    requires Seeded(s) && forall step :: step in steps ==> OwnStep(step)
    ensures RowsOpened(Rows(sha, Run(s, scopes, steps).log, session))
  {
    hide Run, Rows, RowsOpened, AllOpened, OwnNames, ProperLog, OwnStep;
    EveryRunOpensFirst(s, scopes, steps);
    StoreOpensFirst(sha, Run(s, scopes, steps), session);
  }
}
