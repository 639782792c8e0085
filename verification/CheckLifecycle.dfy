/**
 * What becomes of one authorization check (platform/authorization_checks.py), case by case: by the state of its record,
 * by the clock, and by what the policy answers.
 */
module CheckLifecycle {
  import opened Wrappers
  import opened PolicyTable
  import opened PolicyDecide
  import opened AuthorizationChecks

  // ---- The vocabulary ----

  /** The record still waits for something: for its decision, or for a human. */
  predicate Waits(c: Check) {
    c.state in {Created, FactsCompiled, PolicyEvaluating, Pending, WaitingForHuman}
  }

  /** The record still waits for its decision. */
  predicate Undecided(c: Check) {
    c.state in {Created, FactsCompiled, PolicyEvaluating, Pending}
  }

  predicate MayExecute(c: Check) {
    c.state in {Approved, AutoApproved}
  }

  predicate RanOut(c: Check, now: nat) {
    Waits(c) && now >= c.expiresAt
  }

  /** Only the record of one check changed; decisions, index, clock and ids are as they were. */
  predicate OnlyRecord(s: Service, t: Service, id: nat, c: Check) {
    t == s.(checks := s.checks[id := c])
  }

  /** The record expired now, with whatever decision it had. */
  predicate ExpiredNow(s: Service, t: Service, id: nat) {
    id in s.checks && OnlyRecord(s, t, id, s.checks[id].(state := Expired, updatedAt := s.now, safeReason := "authorization check expired"))
  }

  /** The decision is stored, and the record shows it together with its proof. */
  ghost predicate DecidedNow(s: Service, t: Service, id: nat, before: Check, d: PolicyDecision) {
    && t.index == s.index && t.now == s.now && t.nextId == s.nextId && t.decisions == s.decisions[id := d]
    && id in t.checks && t.checks == s.checks[id := t.checks[id]]
    && t.checks[id] == before.(state := t.checks[id].state, updatedAt := s.now, decision := Some(d.decision), safeReason := d.reason,
                               proofId := if d.proofHash != "" then d.proofHash else before.proofId)
    && match d.decision
       case Allow => t.checks[id].state == Approved
       case AutoApprove => t.checks[id].state == AutoApproved
       case EscalateHuman => t.checks[id].state == WaitingForHuman
       case Repair => t.checks[id].state == Repairable
       case Deny => t.checks[id].state == Denied
  }

  /** The policy raised: the record is left evaluating, and nothing is stored. */
  predicate LeftEvaluating(s: Service, t: Service, id: nat, before: Check) {
    OnlyRecord(s, t, id, before.(state := PolicyEvaluating, updatedAt := s.now, safeReason := "policy engine evaluating"))
  }

  /** An undecided record takes what the policy answers, or is left evaluating. */
  ghost predicate Answered(s: Service, t: Service, id: nat, before: Check, decided: Result<PolicyDecision>) {
    match decided
    case Ok(d) => DecidedNow(s, t, id, before, d)
    case Err(_) => LeftEvaluating(s, t, id, before)
  }

  /** A record that was filed now under a fresh id; it lives for its time to live. */
  predicate FiledNow(s: Service, t: Service, id: nat, session: string, tool: string, resource: string, key: string, ttl: int) {
    && id == s.nextId && t.nextId == s.nextId + 1 && t.now == s.now && t.decisions == s.decisions
    && t.index == s.index[(session, key) := id]
    && id in t.checks && t.checks == s.checks[id := t.checks[id]]
    && t.checks[id] == Check(id, key, session, tool, resource, Created, s.now, s.now, s.now + ttl, None, "", "")
  }

  lemma WaitsUnlessTerminal(c: Check)
    ensures Waits(c) <==> !Terminal(c.state)
    ensures Undecided(c) <==> !Settled(c.state)
  {
    match c.state {
      case Created =>
      case FactsCompiled =>
      case PolicyEvaluating =>
      case Pending =>
      case WaitingForHuman =>
      case _ =>
    }
  }

  // ---- One call ----

  /** Reading a check expires it exactly when it waits and its time is over; nothing else is touched. */
  lemma GetExpiresIff(s: Service, id: nat)
    ensures GetCheck(s, id).None? <==> id !in s.checks
    ensures id in s.checks && RanOut(s.checks[id], s.now) ==> ExpiredNow(s, GetCheck(s, id).value, id)
    ensures id in s.checks && !RanOut(s.checks[id], s.now) ==> GetCheck(s, id).value == s
  {
    if id in s.checks && !RanOut(s.checks[id], s.now) {
      WaitsUnlessTerminal(s.checks[id]);
      assert s.checks[id := s.checks[id]] == s.checks;
      assert GetCheck(s, id) == Some(s);
    }
  }

  /** Creating on a known key reads the check; on a new key it files one. */
  lemma CreateFilesOrReads(s: Service, session: string, tool: string, resource: string, key: string, ttl: int)
    requires Inv(s)
    ensures var (t, id) := CreateCheck(s, session, tool, resource, key, ttl);
      if (session, key) in s.index
      then id == s.index[(session, key)] && id in s.checks && if RanOut(s.checks[id], s.now) then ExpiredNow(s, t, id) else t == s
      else FiledNow(s, t, id, session, tool, resource, key, ttl)
  {
    if (session, key) in s.index {
      KnownIdsAreFiled(s, session, key);
      GetExpiresIff(s, s.index[(session, key)]);
    }
  }

  /** What `Judge` does to an undecided record. */
  lemma JudgeAnswers(s: Service, id: nat, decided: Result<PolicyDecision>)
    requires id in s.checks
    ensures Answered(s, Judge(s, id, decided), id, s.checks[id], decided)
  {
  }

  /** One evaluation: a check that ran out expires undecided, a settled one stays, an undecided one is answered. */
  ghost predicate EvaluatedTo(s: Service, t: Service, id: nat, decided: Result<PolicyDecision>) {
    id in s.checks
    && if RanOut(s.checks[id], s.now) then ExpiredNow(s, t, id)
       else if Undecided(s.checks[id]) then Answered(s, t, id, s.checks[id], decided)
       else t == s
  }

  /** Evaluating on a known key. */
  lemma EvaluateKnown(s: Service, session: string, tool: string, resource: string, key: string, ttl: int, decided: Result<PolicyDecision>)
    requires Inv(s) && (session, key) in s.index
    ensures var (t, id) := EvaluateCheck(s, session, tool, resource, key, ttl, decided);
      id == s.index[(session, key)] && EvaluatedTo(s, t, id, decided)
  {
    hide Inv, Judge, Answered, CreateCheck;
    CreateFilesOrReads(s, session, tool, resource, key, ttl);
    var (t, id) := CreateCheck(s, session, tool, resource, key, ttl);
    JudgeAnswers(t, id, decided);
  }

  /** Evaluating on a new key files a check and answers it at once, whatever its time to live. */
  lemma EvaluateNew(s: Service, session: string, tool: string, resource: string, key: string, ttl: int, decided: Result<PolicyDecision>)
    requires Inv(s) && (session, key) !in s.index
    ensures var (t, id) := EvaluateCheck(s, session, tool, resource, key, ttl, decided);
      exists filed :: FiledNow(s, filed, id, session, tool, resource, key, ttl) && Answered(filed, t, id, filed.checks[id], decided)
  {
    hide Inv, Judge, Answered, CreateCheck;
    CreateFilesOrReads(s, session, tool, resource, key, ttl);
    var (filed, id) := CreateCheck(s, session, tool, resource, key, ttl);
    JudgeAnswers(filed, id, decided);
  }

  /** Cancelling: a waiting check ends cancelled, or expired if it ran out; any other stays as it is. */
  lemma CancelEnds(s: Service, id: nat, reason: string)
    ensures CancelCheck(s, id, reason).None? <==> id !in s.checks
    ensures id in s.checks ==>
      var t := CancelCheck(s, id, reason).value;
      if RanOut(s.checks[id], s.now) then ExpiredNow(s, t, id)
      else if Waits(s.checks[id])
      then OnlyRecord(s, t, id, s.checks[id].(state := Cancelled, updatedAt := s.now, safeReason := reason))
      else t == s
  {
    GetExpiresIff(s, id);
    if id in s.checks {
      WaitsUnlessTerminal(s.checks[id]);
    }
  }

  // ---- Every run ----

  /** The last change of the record lies before its expiry. */
  predicate InTime(c: Check) {
    c.updatedAt < c.expiresAt
  }

  /** An executable check was approved in time exactly when it was created with a positive time to live. */
  predicate Timely(c: Check) {
    && c.createdAt <= c.updatedAt
    && (c.state == Created ==> c.updatedAt == c.createdAt)
    && (MayExecute(c) ==> (InTime(c) <==> c.createdAt < c.expiresAt))
  }

  ghost predicate AllTimely(s: Service) {
    forall id :: id in s.checks ==> Timely(s.checks[id]) && s.checks[id].updatedAt <= s.now
  }

  lemma EvaluateKeepsTimely(
    s: Service, session: string, tool: string, resource: string, key: string, ttl: int, decided: Result<PolicyDecision>)
    requires Inv(s) && AllTimely(s)
    ensures AllTimely(EvaluateCheck(s, session, tool, resource, key, ttl, decided).0)
  {
    hide Inv, EvaluateCheck;
    if (session, key) in s.index {
      EvaluateKnown(s, session, tool, resource, key, ttl, decided);
    } else {
      EvaluateNew(s, session, tool, resource, key, ttl, decided);
    }
  }

  lemma StepKeepsTimely(s: Service, step: Step)
    requires Inv(s) && AllTimely(s)
    ensures AllTimely(Apply(s, step))
  {
    hide Inv, EvaluateCheck, CreateCheck, GetCheck, CancelCheck;
    match step {
      case CreateStep(session, tool, resource, key, ttl) => CreateFilesOrReads(s, session, tool, resource, key, ttl);
      case EvaluateStep(session, tool, resource, key, ttl, decided) =>
        EvaluateKeepsTimely(s, session, tool, resource, key, ttl, decided);
      case GetStep(id) => GetExpiresIff(s, id);
      case CancelStep(id, reason) => CancelEnds(s, id, reason);
      case TickStep(_) =>
    }
  }

  lemma {:induction false} EveryRunIsTimely(steps: seq<Step>)
    ensures AllTimely(Run(EMPTY, steps))
  {
    hide Inv, Apply;
    if steps != [] {
      var n := |steps| - 1;
      EveryRunIsTimely(steps[..n]);
      EveryRunKeepsInv(steps[..n]);
      StepKeepsTimely(Run(EMPTY, steps[..n]), steps[n]);
    }
  }

  /**
   * In every run, an executable check became executable strictly before its expiry if and only if it was created with a
   * positive time to live.
   */
  lemma ApprovedInTimeIff(steps: seq<Step>, id: nat)
    requires id in Run(EMPTY, steps).checks && MayExecute(Run(EMPTY, steps).checks[id])
    ensures var c := Run(EMPTY, steps).checks[id]; InTime(c) <==> c.createdAt < c.expiresAt
  {
    hide Run;
    EveryRunIsTimely(steps);
  }

  /** With a time to live of zero, a check is filed and approved at its very expiry. */
  lemma ApprovedAtExpiry(d: PolicyDecision)
    requires d.decision == Allow
    ensures var s := Run(EMPTY, [EvaluateStep("s", "t", "r", "k", 0, Ok(d))]);
      0 in s.checks && s.checks[0].state == Approved && s.checks[0].updatedAt == s.checks[0].expiresAt
  {
    var step := EvaluateStep("s", "t", "r", "k", 0, Ok(d));
    assert [step][..0] == [];
    assert Run(EMPTY, []) == EMPTY;
  }
}
