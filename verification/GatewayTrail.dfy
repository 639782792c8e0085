/**
 * What the stored event table shows of every run (platform/dolt_store.py, platform/gateway_service.py,
 * platform/runtime_execution.py): under their stored names, an execution comes after its consumption, and that after its
 * executable decision.
 */
module GatewayTrail {
  import opened Wrappers
  import opened Text
  import opened Json
  import opened Canonical
  import opened Redaction
  import opened PolicyTable
  import opened PolicyDecide
  import opened AuditLog
  import opened Ledger
  import opened LedgerEvents
  import opened Gateway
  import opened GatewaySafety
  import opened GatewayLeases
  import opened GatewayHistory
  import LedgerInvariant

  // ---- From the log to the rows of one session ----

  /** How many earlier entries belong to the session: the position of an entry in its session's history. */
  function Rank(log: seq<Entry>, session: string, k: nat): nat
    requires k <= |log|
  {
    if k == 0 then 0 else Rank(log, session, k - 1) + (if log[k - 1].session == session then 1 else 0)
  }

  lemma {:induction false} RankIsMonotone(log: seq<Entry>, session: string, j: nat, k: nat)
    requires j < k <= |log| && log[j].session == session
    ensures Rank(log, session, j) < Rank(log, session, k)
  {
    if j < k - 1 {
      RankIsMonotone(log, session, j, k - 1);
    }
  }

  lemma {:induction false} RankOfPrefix(log: seq<Entry>, more: seq<Entry>, session: string, k: nat)
    requires log <= more && k <= |log|
    ensures Rank(log, session, k) == Rank(more, session, k)
  {
    if k > 0 {
      RankOfPrefix(log, more, session, k - 1);
    }
  }

  /** The appends to a session are the session's entries, in order. */
  lemma {:induction false} SentAtRank(log: seq<Entry>, session: string)
    ensures |Sent(AppendsOf(log), session)| == Rank(log, session, |log|)
    ensures forall k :: 0 <= k < |log| && log[k].session == session ==>
              Rank(log, session, k) < Rank(log, session, |log|)
              && Sent(AppendsOf(log), session)[Rank(log, session, k)] == AppendOf(log[k])
  {
    hide EventType, EventBody;
    if log != [] {
      var n := |log| - 1;
      var before := log[..n];
      var sent := Sent(AppendsOf(before), session);
      assert AppendsOf(log)[..n] == AppendsOf(before);
      SentAtRank(before, session);
      RankOfPrefix(before, log, session, n);
      assert Sent(AppendsOf(log), session) == if log[n].session == session then sent + [AppendOf(log[n])] else sent;
      hide Sent, AppendOf;
      forall k | 0 <= k < |log| && log[k].session == session
        ensures Rank(log, session, k) < Rank(log, session, |log|)
        ensures Sent(AppendsOf(log), session)[Rank(log, session, k)] == AppendOf(log[k])
      {
        RankIsMonotone(log, session, k, |log|);
        if k < n {
          RankOfPrefix(before, log, session, k);
          assert before[k] == log[k];
        }
      }
    }
  }

  /** Every place in the history is that of an entry. */
  lemma {:induction false} EntryAtRank(log: seq<Entry>, session: string, n: nat, m: nat) returns (k: nat)
    requires m <= |log| && n < Rank(log, session, m)
    ensures k < m && log[k].session == session && Rank(log, session, k) == n
  {
    if Rank(log, session, m - 1) > n {
      k := EntryAtRank(log, session, n, m - 1);
    } else {
      k := m - 1;
    }
  }

  /** What the table stores of an entry. */
  predicate RowTells(row: EventRow, e: Entry) {
    row.session == e.session && row.eventType == EventType(e.event) && row.body == SortKeys(Scrubbed(EventBody(e.event)))
  }

  function Rows(sha: Value -> string, log: seq<Entry>, session: string): seq<EventRow> {
    History(EventTable(sha, AppendsOf(log)), session)
  }

  /** The stored history of a session tells its entries in order. */
  lemma RowsTell(sha: Value -> string, log: seq<Entry>, session: string)
    requires ProperLog(log)
    ensures |Rows(sha, log, session)| == Rank(log, session, |log|)
    ensures forall k :: 0 <= k < |log| && log[k].session == session ==>
              Rank(log, session, k) < |Rows(sha, log, session)| && RowTells(Rows(sha, log, session)[Rank(log, session, k)], log[k])
  {
    hide EventType, EventBody, Scrubbed, SortKeys, EventTable, History, Chain;
    LogIsChained(sha, log, session);
    SentAtRank(log, session);
  }

  // ---- What a row says ----

  /** The value that the row stores under the key. */
  function At(row: EventRow, key: string): Option<Value> {
    if row.body.Obj? then Get(row.body.fields, key) else None
  }

  predicate IsRow(row: EventRow, name: string, decision: nat) {
    row.eventType == name && At(row, "decision_id") == Some(Num(decision))
  }

  /** A text as the table stores it. */
  function StoredText(text: string): Value {
    SortKeys(Scrubbed(Str(text)))
  }

  /** The row names the tool and the resource of the deed. */
  predicate NamesCall(row: EventRow, x: Deed) {
    At(row, "tool_id") == Some(StoredText(x.tool)) && At(row, "resource_id") == Some(StoredText(x.resource))
  }

  lemma FieldStored(row: EventRow, e: Entry, key: string, v: Value, n: nat)
    requires RowTells(row, e) && Proper(e.event) && EventBody(e.event).Obj? && n < |EventBody(e.event).fields|
    requires EventBody(e.event).fields[n] == Field(key, v) && !SensitiveKey(key)
    ensures At(row, key) == Some(SortKeys(Scrubbed(v)))
  {
    hide EventType, EventBody, Scrubbed, SortKeys, SensitiveKey;
    BodyWellFormed(e.event);
    assert Field(key, v) in EventBody(e.event).fields;
    FieldSurvives(EventBody(e.event).fields, key, v);
  }

  lemma PlainValues(n: int, text: string)
    ensures SortKeys(Scrubbed(Num(n))) == Num(n)
  {
  }

  /** The row of an execution. */
  lemma ExecutedRow(row: EventRow, e: Entry)
    requires RowTells(row, e) && e.event.CallExecuted?
    ensures IsRow(row, "downstream_call_executed", e.event.decision) && NamesCall(row, DeedOf(e))
    ensures At(row, "proof_id") == Some(StoredText(e.event.proofId))
  {
    hide Scrubbed, SortKeys, SensitiveKey;
    DecisionIdIsHarmless();
    ToolIdIsHarmless();
    ResourceIdIsHarmless();
    ProofIdIsHarmless();
    PlainValues(e.event.decision, "");
    FieldStored(row, e, "tool_id", Str(e.event.tool), 0);
    FieldStored(row, e, "resource_id", Str(e.event.resource), 1);
    FieldStored(row, e, "decision_id", Num(e.event.decision), 2);
    FieldStored(row, e, "proof_id", Str(e.event.proofId), 4);
  }

  /** The row of a consumption. */
  lemma ConsumedRow(row: EventRow, e: Entry, x: Deed)
    requires RowTells(row, e) && ConsumesFor(e, x)
    ensures IsRow(row, "grant_consumed", x.decision) && NamesCall(row, x) && At(row, "grant_id") == Some(Num(e.event.grant))
  {
    hide Scrubbed, SortKeys, SensitiveKey;
    DecisionIdIsHarmless();
    ToolIdIsHarmless();
    ResourceIdIsHarmless();
    GrantIdIsHarmless();
    PlainValues(e.event.decision, "");
    PlainValues(e.event.grant, "");
    FieldStored(row, e, "grant_id", Num(e.event.grant), 0);
    FieldStored(row, e, "tool_id", Str(e.event.tool), 1);
    FieldStored(row, e, "resource_id", Str(e.event.resource), 2);
    FieldStored(row, e, "decision_id", Num(e.event.decision), 3);
  }

  lemma LowerAddsLetters(s: string, c: char)
    requires c !in s && !('a' <= c <= 'z')
    ensures c !in Lower(s)
  {
  }

  /** A text without blanks and slashes is no secret. */
  lemma WordIsPlain(s: string)
    requires ' ' !in s && '/' !in s
    ensures Scrubbed(Str(s)) == Str(s)
  {
    LowerAddsLetters(s, '/');
    LowerAddsLetters(s, ' ');
    assert "op://"[3] == '/' && "authorization: bearer "[14] == ' ';
    MissingLetter(Lower(s), "op://", '/');
    MissingLetter(Lower(s), "authorization: bearer ", ' ');
    hide Contains;
  }

  /** The words of an executable decision are no secret. */
  lemma ExecutableWords(d: Decision)
    requires Executable(d)
    ensures SortKeys(Scrubbed(Str(DecisionText(d)))) == Str(if d == Allow then "ALLOW" else "AUTO_APPROVE_EPHEMERAL_GRANT")
  {
    hide Scrubbed;
    WordIsPlain(DecisionText(d));
  }

  lemma DecidedNames(row: EventRow, e: Entry, x: Deed, check: nat, proof: string)
    requires RowTells(row, e) && RecordsAuth(e, x, check, proof)
    ensures IsRow(row, "policy_decision_recorded", x.decision) && NamesCall(row, x)
  {
    hide Scrubbed, SortKeys, SensitiveKey, DecisionText;
    DecisionIdIsHarmless();
    ToolIdIsHarmless();
    ResourceIdIsHarmless();
    PlainValues(e.event.decision, "");
    FieldStored(row, e, "decision_id", Num(e.event.decision), 0);
    FieldStored(row, e, "tool_id", Str(e.event.tool), 4);
    FieldStored(row, e, "resource_id", Str(e.event.resource), 5);
  }

  lemma DecidedWords(row: EventRow, e: Entry, x: Deed, check: nat, proof: string)
    requires RowTells(row, e) && RecordsAuth(e, x, check, proof)
    ensures At(row, "decision") == Some(Str("ALLOW")) || At(row, "decision") == Some(Str("AUTO_APPROVE_EPHEMERAL_GRANT"))
    ensures At(row, "proof_hash") == Some(StoredText(proof))
  {
    hide Scrubbed, SortKeys, SensitiveKey, DecisionText;
    DecisionIsHarmless();
    ProofHashIsHarmless();
    ExecutableWords(e.event.verdict);
    FieldStored(row, e, "decision", Str(DecisionText(e.event.verdict)), 3);
    FieldStored(row, e, "proof_hash", Str(e.event.proofHash), 7);
  }

  /** The row of an executable decision. */
  lemma DecidedRow(row: EventRow, e: Entry, x: Deed, check: nat, proof: string)
    requires RowTells(row, e) && RecordsAuth(e, x, check, proof)
    ensures IsRow(row, "policy_decision_recorded", x.decision) && NamesCall(row, x)
    ensures At(row, "decision") == Some(Str("ALLOW")) || At(row, "decision") == Some(Str("AUTO_APPROVE_EPHEMERAL_GRANT"))
    ensures At(row, "proof_hash") == Some(StoredText(proof))
  {
    hide RowTells, RecordsAuth, At, IsRow, NamesCall;
    DecidedNames(row, e, x, check, proof);
    DecidedWords(row, e, x, check, proof);
  }

  /** The row of an injection. */
  lemma InjectedRow(row: EventRow, e: Entry, x: Deed)
    requires RowTells(row, e) && Injects(e, x) && Proper(e.event)
    ensures IsRow(row, "credential_injected_by_gateway", x.decision)
  {
    hide Scrubbed, SortKeys, SensitiveKey;
    DecisionIdIsHarmless();
    PlainValues(x.decision, "");
    var n :| 0 <= n < |e.event.body.fields| && e.event.body.fields[n] == Field("decision_id", Num(x.decision));
    FieldStored(row, e, "decision_id", Num(x.decision), n);
  }

  /** Only executions are stored under their name. */
  lemma NamedExecuted(e: Event)
    requires OwnName(e) && EventType(e) == "downstream_call_executed"
    ensures e.CallExecuted?
  {
  }

  lemma NamedConsumed(e: Event)
    requires OwnName(e) && EventType(e) == "grant_consumed"
    ensures e.GrantConsumed?
  {
  }

  // ---- Every run ----

  /** Row `k` comes after a consumption, and that after an executable decision, of the same call and proof. */
  ghost predicate RowBacked(h: seq<EventRow>, k: nat)
    requires k < |h|
  {
    exists i: nat, j: nat, d: nat :: i < j < k && RowBackedBy(h[i], h[j], h[k], d)
  }

  predicate RowBackedBy(decided: EventRow, consumed: EventRow, executed: EventRow, d: nat) {
    && IsRow(executed, "downstream_call_executed", d) && IsRow(consumed, "grant_consumed", d)
    && IsRow(decided, "policy_decision_recorded", d)
    && (At(decided, "decision") == Some(Str("ALLOW")) || At(decided, "decision") == Some(Str("AUTO_APPROVE_EPHEMERAL_GRANT")))
    && At(decided, "tool_id") == At(consumed, "tool_id") == At(executed, "tool_id")
    && At(decided, "resource_id") == At(consumed, "resource_id") == At(executed, "resource_id")
    && At(decided, "proof_hash") == At(executed, "proof_id")
  }

  /** No decision is executed twice, and none consumes twice. */
  ghost predicate RowsOnce(h: seq<EventRow>, name: string) {
    forall k, m :: 0 <= k < m < |h| && h[k].eventType == name && h[m].eventType == name
      ==> At(h[k], "decision_id") != At(h[m], "decision_id")
  }

  lemma ExecutedRowIsBacked(cfg: Config, sha: Value -> string, s: Store, session: string, k: nat)
    requires ProperLog(s.log) && AllProper(cfg, s) && k < |s.log| && s.log[k].session == session && s.log[k].event.CallExecuted?
    ensures Rank(s.log, session, k) < |Rows(sha, s.log, session)| && RowBacked(Rows(sha, s.log, session), Rank(s.log, session, k))
  {
    hide EventType, EventBody, Scrubbed, SortKeys, EventTable, History, Covers, Leased, RowTells, At, IsRow, NamesCall;
    var h, log, e := Rows(sha, s.log, session), s.log, s.log[k];
    var x := DeedOf(e);
    RowsTell(sha, log, session);
    assert ExecutedProperly(cfg, s, k);
    var i: nat, j: nat, g: nat :| PreparedBy(cfg, s, k, x, e.event.check, e.event.proofId, i, j, g);
    var a, b, c := Rank(log, session, i), Rank(log, session, j), Rank(log, session, k);
    RankIsMonotone(log, session, i, j);
    RankIsMonotone(log, session, j, k);
    DecidedRow(h[a], log[i], x, e.event.check, e.event.proofId);
    ConsumedRow(h[b], log[j], x);
    ExecutedRow(h[c], e);
    NamedAlike(h[a], h[b], h[c], x);
    assert RowBackedBy(h[a], h[b], h[c], x.decision);
  }

  lemma NamedAlike(a: EventRow, b: EventRow, c: EventRow, x: Deed)
    requires NamesCall(a, x) && NamesCall(b, x) && NamesCall(c, x)
    ensures At(a, "tool_id") == At(b, "tool_id") == At(c, "tool_id")
    ensures At(a, "resource_id") == At(b, "resource_id") == At(c, "resource_id")
  {
  }

  /** The entry behind a row. */
  lemma EntryBehind(sha: Value -> string, log: seq<Entry>, session: string, n: nat) returns (k: nat)
    requires ProperLog(log) && n < |Rows(sha, log, session)|
    ensures k < |log| && log[k].session == session && Rank(log, session, k) == n && RowTells(Rows(sha, log, session)[n], log[k])
  {
    hide EventTable, History, RowTells, Rank;
    RowsTell(sha, log, session);
    k := EntryAtRank(log, session, n, |log|);
  }

  lemma ExecutedOnce(sha: Value -> string, s: Store, session: string)
    requires ProperLog(s.log) && SafeLog(s.log) && OwnNames(s.log)
    ensures RowsOnce(Rows(sha, s.log, session), "downstream_call_executed")
  {
    hide EventTable, History, Rank, EventType, EventBody, Scrubbed, SortKeys, At, ConsumedBefore;
    var h := Rows(sha, s.log, session);
    forall n, m | 0 <= n < m < |h| && h[n].eventType == "downstream_call_executed" && h[m].eventType == "downstream_call_executed"
      ensures At(h[n], "decision_id") != At(h[m], "decision_id")
    {
      var a := EntryBehind(sha, s.log, session, n);
      var b := EntryBehind(sha, s.log, session, m);
      NamedExecuted(s.log[a].event);
      NamedExecuted(s.log[b].event);
      ExecutedRow(h[n], s.log[a]);
      ExecutedRow(h[m], s.log[b]);
    }
  }

  lemma ConsumedOnce(sha: Value -> string, s: Store, session: string)
    requires ProperLog(s.log) && SafeLog(s.log) && OwnNames(s.log)
    ensures RowsOnce(Rows(sha, s.log, session), "grant_consumed")
  {
    hide EventTable, History, Rank, EventType, EventBody, Scrubbed, SortKeys, At, ConsumedBefore;
    var h := Rows(sha, s.log, session);
    forall n, m | 0 <= n < m < |h| && h[n].eventType == "grant_consumed" && h[m].eventType == "grant_consumed"
      ensures At(h[n], "decision_id") != At(h[m], "decision_id")
    {
      var a := EntryBehind(sha, s.log, session, n);
      var b := EntryBehind(sha, s.log, session, m);
      NamedConsumed(s.log[a].event);
      NamedConsumed(s.log[b].event);
      var x, y := ConsumedDeed(s.log[a]), ConsumedDeed(s.log[b]);
      ConsumedRow(h[n], s.log[a], x);
      ConsumedRow(h[m], s.log[b], y);
    }
  }

  function ConsumedDeed(e: Entry): Deed
    requires e.event.GrantConsumed?
  {
    Deed(e.session, e.event.tool, e.event.resource, e.event.decision)
  }

  /** In the stored history of a session, every execution is backed, and nothing happens twice for one decision. */
  ghost predicate RowsInOrder(h: seq<EventRow>) {
    && (forall k :: 0 <= k < |h| && h[k].eventType == "downstream_call_executed" ==> RowBacked(h, k))
    && RowsOnce(h, "downstream_call_executed") && RowsOnce(h, "grant_consumed")
  }

  lemma StoreInOrder(cfg: Config, sha: Value -> string, s: Store, session: string)
    requires ProperLog(s.log) && SafeLog(s.log) && OwnNames(s.log) && AllProper(cfg, s)
    ensures RowsInOrder(Rows(sha, s.log, session))
  {
    hide EventTable, History, Rank, EventType, EventBody, Scrubbed, SortKeys, At, SafeLog, AllProper, RowsOnce, RowBacked;
    ExecutedOnce(sha, s, session);
    ConsumedOnce(sha, s, session);
    var h := Rows(sha, s.log, session);
    forall n | 0 <= n < |h| && h[n].eventType == "downstream_call_executed" ensures RowBacked(h, n) {
      var k := EntryBehind(sha, s.log, session, n);
      NamedExecuted(s.log[k].event);
      ExecutedRowIsBacked(cfg, sha, s, session, k);
    }
  }

  /**
   * In every run, the table that is stored and hashed tells the protocol under its own names: each row
   * "downstream_call_executed" of a session comes after a row "grant_consumed", and that after a row
   * "policy_decision_recorded" with an executable decision, all with one decision id, tool and resource and with the
   * proof of the decision; and no decision is consumed for or executed twice.
   */
  lemma EveryStoredExecutionIsBacked(cfg: Config, w: World, steps: seq<Step>, session: string)
    requires Initial(w)
    ensures RowsInOrder(Rows(cfg.sha, Run(cfg, w, steps).store.log, session))
  {
    hide Run, RowsInOrder, Rows, AllProper, OwnNames, SafeLog, Initial, LedgerInvariant.Inv, LedgerInvariant.Evolves;
    InitialInv(w);
    EveryRunKeepsInv(cfg, w, steps);
    TrackedLog(Run(cfg, w, steps));
    EveryExecutionWasPrepared(cfg, w, steps);
    InitialNames(w);
    EveryRunKeepsNames(cfg, w, steps);
    StoreInOrder(cfg, cfg.sha, Run(cfg, w, steps).store, session);
  }

  lemma TrackedLog(w: World)
    requires GatewaySafety.Inv(w)
    ensures ProperLog(w.store.log) && SafeLog(w.store.log)
  {
  }

  lemma InitialNames(w: World)
    requires Initial(w)
    ensures OwnNames(w.store.log)
  {
  }

  // ---- Stored injections ----

  /** The stored history shows the injection for an execution whose tool is bound to a credential under its grant. */
  ghost predicate InjectionStored(cfg: Config, s: Store, h: seq<EventRow>, session: string, k: nat)
    requires k < |s.log| && s.log[k].event.CallExecuted?
  {
    exists j: nat, g: nat :: InjectionStoredBy(cfg, s, h, session, k, j, g)
  }

  ghost predicate InjectionStoredBy(cfg: Config, s: Store, h: seq<EventRow>, session: string, k: nat, j: nat, g: nat)
    requires k < |s.log| && s.log[k].event.CallExecuted?
  {
    var x := DeedOf(s.log[k]);
    && j < k && g < |s.grants| && ConsumesFor(s.log[j], x) && Covers(cfg, s.grants[g], s.log[j].event.grant, x)
    && (CredentialBound(cfg, x, s.grants[g].scope) ==>
          exists m :: Rank(s.log, session, j) < m < Rank(s.log, session, k) && m < |h|
                      && IsRow(h[m], "credential_injected_by_gateway", x.decision))
  }

  lemma StoredInjection(cfg: Config, sha: Value -> string, s: Store, session: string, k: nat)
    requires ProperLog(s.log) && AllProper(cfg, s) && k < |s.log| && s.log[k].session == session && s.log[k].event.CallExecuted?
    ensures InjectionStored(cfg, s, Rows(sha, s.log, session), session, k)
  {
    hide EventType, EventBody, Scrubbed, SortKeys, EventTable, History, Covers, RowTells, At, IsRow, CredentialBound, Injects;
    var h, log, e := Rows(sha, s.log, session), s.log, s.log[k];
    var x := DeedOf(e);
    RowsTell(sha, log, session);
    assert ExecutedProperly(cfg, s, k);
    var i: nat, j: nat, g: nat :| PreparedBy(cfg, s, k, x, e.event.check, e.event.proofId, i, j, g);
    if CredentialBound(cfg, x, s.grants[g].scope) {
      var m :| j < m < k && m < |log| && Injects(log[m], x);
      InjectionOf(log[m], x);
      RankIsMonotone(log, session, j, m);
      RankIsMonotone(log, session, m, k);
      assert Proper(log[m].event);
      InjectedRow(h[Rank(log, session, m)], log[m], x);
    }
    assert InjectionStoredBy(cfg, s, h, session, k, j, g);
  }

  lemma InjectionOf(e: Entry, x: Deed)
    requires Injects(e, x)
    ensures e.session == x.session
  {
  }

  /**
   * In every run and for every execution of a session, if a credential is bound to the tool and the resource under the
   * scope of the consumed grant, the stored history shows the injection of the credential for that decision between the
   * consumption and the execution.
   */
  lemma EveryStoredExecutionWasInjected(cfg: Config, w: World, steps: seq<Step>, session: string)
    requires Initial(w)
    ensures InjectionsStored(cfg, Run(cfg, w, steps).store, session)
  {
    hide Run, AllProper, InjectionStored, ProperLog, Rows;
    InitialInv(w);
    EveryRunKeepsInv(cfg, w, steps);
    TrackedLog(Run(cfg, w, steps));
    EveryExecutionWasPrepared(cfg, w, steps);
    var s := Run(cfg, w, steps).store;
    forall k | 0 <= k < |s.log| && s.log[k].session == session && s.log[k].event.CallExecuted?
      ensures InjectionStored(cfg, s, Rows(cfg.sha, s.log, session), session, k)
    {
      StoredInjection(cfg, cfg.sha, s, session, k);
    }
  }

  ghost predicate InjectionsStored(cfg: Config, s: Store, session: string) {
    hide InjectionStored, Rows;
    forall k :: 0 <= k < |s.log| && s.log[k].session == session && s.log[k].event.CallExecuted?
      ==> InjectionStored(cfg, s, Rows(cfg.sha, s.log, session), session, k)
  }
}
