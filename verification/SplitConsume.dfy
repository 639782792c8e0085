/**
 * `consume_grant_for_tool` (platform/dolt_store.py) with its `SELECT` and its guarded `UPDATE` as separate steps of
 * concurrent callers.
 */
module SplitConsume {
  import opened Wrappers
  import opened GrantLifecycle
  import opened GraphFallback
  import opened Ledger
  import opened LedgerInvariant

  /** A caller between its two statements: the row it read, and what it was asked. */
  datatype Caller = Caller(row: nat, grant: Grant, session: string, tool: string, resource: string, decision: nat)

  /** `missed` lists the grants of the updates whose guard failed. */
  datatype Split = Split(grants: seq<Grant>, log: seq<Entry>, waiting: map<nat, Caller>, missed: seq<nat>, now: nat, nextId: nat)

  datatype Step =
    | SelectStep(caller: nat, session: string, tool: string, resource: string, decision: nat, tie: nat)
    | UpdateStep(caller: nat)
    | IssueStep(session: string, scope: string, resource: string, proofId: string, reason: string)
    | ApproveStep(request: nat, approver: string, session: string, scope: string, resource: string, proofId: string)
    | TickStep(seconds: nat)

  function Apply(s: Split, scopes: seq<ToolScopeRec>, step: Step): Split {
    match step
    case SelectStep(caller, session, tool, resource, decision, tie) =>
      (match Select(s.grants, scopes, session, tool, resource, s.now, tie)
       case None => s
       case Some(i) => s.(waiting := s.waiting[caller := Caller(i, s.grants[i], session, tool, resource, decision)]))
    case UpdateStep(caller) => if caller in s.waiting then Update(s, caller) else s
    case IssueStep(session, scope, resource, proofId, reason) =>
      Insert(s, session, scope, resource, AUTO_ISSUER, proofId, 900, 1,
             GrantIssued(s.nextId, scope, resource, AUTO_ISSUER, proofId, reason, 900, 1))
    case ApproveStep(request, approver, session, scope, resource, proofId) =>
      Insert(s, session, scope, resource, HUMAN_PREFIX + approver, proofId, 3600, 5,
             RequestApproved(request, approver, s.nextId, scope, resource))
    case TickStep(seconds) => s.(now := s.now + seconds)
  }

  /** A new grant under a fresh id, and the event that tells of it; other callers may be between their statements. */
  function Insert(
    s: Split, session: string, scope: string, resource: string, issuer: string, proofId: string, ttl: nat, count: nat, event: Event): Split
  {
    s.(grants := s.grants + [Grant(s.nextId, session, scope, resource, issuer, proofId, count, count, Some(s.now + ttl), s.now)],
       log := s.log + [Entry(session, event)], nextId := s.nextId + 1)
  }

  /** The guarded update, and the event that follows whether or not a row was updated. */
  function Update(s: Split, caller: nat): Split
    requires caller in s.waiting
  {
    var c := s.waiting[caller];
    var hit := c.row < |s.grants| && s.grants[c.row].remaining > 0;
    s.(grants := if hit then s.grants[c.row := s.grants[c.row].(remaining := s.grants[c.row].remaining - 1)] else s.grants,
       log := s.log + [Entry(c.session, GrantConsumed(c.grant.id, c.tool, c.resource, c.decision, c.grant.remaining - 1))],
       waiting := s.waiting - {caller},
       missed := if hit then s.missed else s.missed + [c.grant.id])
  }

  function Run(s: Split, scopes: seq<ToolScopeRec>, steps: seq<Step>): Split {
    if steps == [] then s else Apply(Run(s, scopes, steps[..|steps| - 1]), scopes, steps[|steps| - 1])
  }

  /** How many updates of the grant found nothing left. */
  function Misses(missed: seq<nat>, grant: nat): nat {
    if missed == [] then 0
    else Misses(missed[..|missed| - 1], grant) + (if missed[|missed| - 1] == grant then 1 else 0)
  }

  lemma MissesAppend(missed: seq<nat>, id: nat, grant: nat)
    ensures Misses(missed + [id], grant) == Misses(missed, grant) + (if id == grant then 1 else 0)
  {
  }

  /** The count never goes below zero, and is exact up to the missed updates. */
  predicate Accounted(s: Split, i: nat)
    requires i < |s.grants|
  {
    var g := s.grants[i];
    g.remaining >= 0 && g.initial + Misses(s.missed, g.id) == g.remaining + Uses(s.log, g.id)
  }

  /** No event and no missed update speaks of the id. */
  predicate Unused(s: Split, id: nat) {
    Uses(s.log, id) == 0 && Misses(s.missed, id) == 0
  }

  ghost predicate Inv(s: Split) {
    && (forall i :: 0 <= i < |s.grants| ==> Accounted(s, i))
    && (forall i, j :: 0 <= i < j < |s.grants| ==> s.grants[i].id != s.grants[j].id)
    && (forall i :: 0 <= i < |s.grants| ==> s.grants[i].id < s.nextId)
    && (forall id: nat :: id >= s.nextId ==> Unused(s, id))
    && (forall c :: c in s.waiting ==> s.waiting[c].row < |s.grants| && s.waiting[c].grant.id == s.grants[s.waiting[c].row].id)
  }

  lemma UpdateKeepsInv(s: Split, caller: nat)
    requires Inv(s) && caller in s.waiting
    ensures Inv(Update(s, caller))
    ensures var t, c := Update(s, caller), s.waiting[caller];
      && Uses(t.log, c.grant.id) == Uses(s.log, c.grant.id) + 1
      && (s.grants[c.row].remaining > 0 ==> t.grants[c.row].remaining == s.grants[c.row].remaining - 1 && t.missed == s.missed)
      && (s.grants[c.row].remaining == 0 ==> t.grants == s.grants && t.missed == s.missed + [c.grant.id])
      && (forall j :: 0 <= j < |s.grants| && j != c.row ==> t.grants[j] == s.grants[j])
  {
    hide Uses, Misses;
    var t, c := Update(s, caller), s.waiting[caller];
    var e := t.log[|s.log|];
    CountsAppend(s.log, e);
    forall i | 0 <= i < |t.grants| ensures Accounted(t, i) {
      assert Accounted(s, i);
      MissesAppend(s.missed, c.grant.id, s.grants[i].id);
    }
    assert Accounted(s, c.row);
    forall id: nat | id >= t.nextId ensures Unused(t, id) {
      assert Unused(s, id);
      MissesAppend(s.missed, c.grant.id, id);
    }
  }

  lemma InsertKeepsInv(
    s: Split, session: string, scope: string, resource: string, issuer: string, proofId: string, ttl: nat, count: nat, event: Event)
    requires Inv(s) && !event.GrantConsumed?
    ensures Inv(Insert(s, session, scope, resource, issuer, proofId, ttl, count, event))
  {
    hide Uses, Misses;
    var t := Insert(s, session, scope, resource, issuer, proofId, ttl, count, event);
    CountsAppend(s.log, Entry(session, event));
    assert Unused(s, s.nextId);
    forall i | 0 <= i < |t.grants| ensures Accounted(t, i) {
      if i < |s.grants| {
        assert Accounted(s, i);
      }
    }
    forall id: nat | id >= t.nextId ensures Unused(t, id) {
      assert Unused(s, id);
    }
  }

  lemma StepKeepsInv(s: Split, scopes: seq<ToolScopeRec>, step: Step)
    requires Inv(s)
    ensures Inv(Apply(s, scopes, step))
  {
    hide Uses, Misses, Update, Insert;
    match step
    case UpdateStep(caller) =>
      if caller in s.waiting {
        UpdateKeepsInv(s, caller);
      }
    case IssueStep(session, scope, resource, proofId, reason) =>
      InsertKeepsInv(s, session, scope, resource, AUTO_ISSUER, proofId, 900, 1,
                     GrantIssued(s.nextId, scope, resource, AUTO_ISSUER, proofId, reason, 900, 1));
    case ApproveStep(request, approver, session, scope, resource, proofId) =>
      InsertKeepsInv(s, session, scope, resource, HUMAN_PREFIX + approver, proofId, 3600, 5,
                     RequestApproved(request, approver, s.nextId, scope, resource));
    case _ =>
      var t := Apply(s, scopes, step);
      forall i | 0 <= i < |t.grants| ensures Accounted(t, i) {
        assert Accounted(s, i);
      }
      forall id: nat | id >= t.nextId ensures Unused(t, id) {
        assert Unused(s, id);
      }
  }

  /**
   * In every interleaving, also with grants that are issued and approved in between, no count goes below zero, and only
   * missed updates are unaccounted for.
   */
  lemma {:induction false} EveryInterleavingIsAccounted(s: Split, scopes: seq<ToolScopeRec>, steps: seq<Step>)
    requires Inv(s)
    ensures Inv(Run(s, scopes, steps))
  {
    hide Inv, Apply;
    if steps != [] {
      var before := steps[..|steps| - 1];
      EveryInterleavingIsAccounted(s, scopes, before);
      StepKeepsInv(Run(s, scopes, before), scopes, steps[|steps| - 1]);
    }
  }

  /** With the statements split, conservation holds for a grant exactly when no update of it missed. */
  lemma ConservedIffNoMiss(s: Split, scopes: seq<ToolScopeRec>, steps: seq<Step>, i: nat)
    requires Inv(s) && i < |Run(s, scopes, steps).grants|
    ensures var t := Run(s, scopes, steps);
      t.grants[i].initial == t.grants[i].remaining + Uses(t.log, t.grants[i].id) <==> Misses(t.missed, t.grants[i].id) == 0
  {
    EveryInterleavingIsAccounted(s, scopes, steps);
    assert Accounted(Run(s, scopes, steps), i);
  }

  /** One update keeps conservation exactly when the guard finds a use left. */
  lemma UpdateConservesIff(s: Split, caller: nat)
    requires Inv(s) && caller in s.waiting
    requires var g := s.grants[s.waiting[caller].row]; g.initial == g.remaining + Uses(s.log, g.id)
    ensures var t, row := Update(s, caller), s.waiting[caller].row;
      t.grants[row].initial == t.grants[row].remaining + Uses(t.log, t.grants[row].id) <==> s.grants[row].remaining > 0
  {
  }

  const SCOPES := [ToolScopeRec("tool", "scope", "read")]
  const ONE_USE := Grant(7, "sess", "scope", "res", "policy:auto_approve", "proof", 1, 1, None, 0)
  const START := Split([ONE_USE], [], map[], [], 0, 8)
  const RACE: seq<Step> :=
    [SelectStep(1, "sess", "tool", "res", 11, 0), SelectStep(2, "sess", "tool", "res", 12, 0), UpdateStep(1), UpdateStep(2)]

  const FIRST := Caller(0, ONE_USE, "sess", "tool", "res", 11)
  const SECOND := Caller(0, ONE_USE, "sess", "tool", "res", 12)
  const BOTH := START.(waiting := map[1 := FIRST, 2 := SECOND])

  /** Both selects find the grant. */
  lemma BothSelect()
    ensures Apply(Apply(START, SCOPES, RACE[0]), SCOPES, RACE[1]) == BOTH
  {
  }

  /** Both updates log a use; only the first finds one left. */
  lemma BothUpdate()
    ensures var t := Update(Update(BOTH, 1), 2); t.grants == [ONE_USE.(remaining := 0)] && Uses(t.log, 7) == 2 && t.missed == [7]
  {
    hide Uses;
    var s3 := Update(BOTH, 1);
    assert s3.grants == [ONE_USE.(remaining := 0)] && s3.waiting == map[2 := SECOND];
    var s4 := Update(s3, 2);
    CountsAppend(BOTH.log, s3.log[0]);
    CountsAppend(s3.log, s4.log[1]);
    NoUses(7);
  }

  lemma NoUses(grant: nat)
    ensures Uses([], grant) == 0
  {
  }

  lemma StartInv()
    ensures Inv(START)
  {
  }

  /** Two callers that select before either updates both log a use of a grant that had one. */
  lemma RaceLogsTwoUsesOfOne()
    ensures Inv(START)
    ensures var t := Run(START, SCOPES, RACE); t.grants == [ONE_USE.(remaining := 0)] && Uses(t.log, 7) == 2
  {
    hide Select, Uses, Update;
    StartInv();
    BothSelect();
    BothUpdate();
    assert RACE[..4][..3] == RACE[..3] && RACE[..3][..2] == RACE[..2] && RACE[..2][..1] == RACE[..1] && RACE[..1][..0] == [];
    assert RACE == RACE[..4];
    hide Apply;
    assert Run(START, SCOPES, RACE[..0]) == START;
    assert Run(START, SCOPES, RACE[..1]) == Apply(START, SCOPES, RACE[0]);
    assert Run(START, SCOPES, RACE[..2]) == BOTH;
    UpdatesOfRace();
  }

  lemma UpdatesOfRace()
    ensures Apply(Apply(BOTH, SCOPES, RACE[2]), SCOPES, RACE[3]) == Update(Update(BOTH, 1), 2)
  {
  }
}
