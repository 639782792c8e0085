/** The lifecycle of authorization checks (platform/authorization_checks.py). */
module AuthorizationChecks {
  import opened Wrappers
  import opened PolicyTable
  import opened PolicyDecide

  datatype CheckState =
    | Created | FactsCompiled | PolicyEvaluating | Pending | WaitingForHuman | Approved | AutoApproved | Denied
    | Repairable | Expired | Cancelled

  /** Times are seconds; the time to live may be any integer. */
  datatype Check = Check(
    id: nat, key: string, session: string, tool: string, resource: string, state: CheckState, createdAt: nat,
    updatedAt: nat, expiresAt: int, decision: Option<Decision>, proofId: string, safeReason: string)

  predicate Terminal(s: CheckState) {
    s in {Approved, AutoApproved, Denied, Repairable, Expired, Cancelled}
  }

  /** `EXECUTABLE_STATES`, and `EXECUTABLE_CHECK_STATES` of the runtime. */
  predicate ExecutableState(s: CheckState) {
    s in {Approved, AutoApproved}
  }

  /** `state_for_decision` */
  function StateFor(d: Decision): CheckState {
    match d
    case Allow => Approved
    case AutoApprove => AutoApproved
    case EscalateHuman => WaitingForHuman
    case Repair => Repairable
    case Deny => Denied
  }

  /** `_assert_executable` of the runtime does not raise. */
  predicate PassesAssertExecutable(decision: Decision, state: CheckState) {
    Executable(decision) && ExecutableState(state)
  }

  /** The fields of the service, with its clock and its source of fresh identifiers. */
  datatype Service = Service(
    checks: map<nat, Check>, index: map<(string, string), nat>, decisions: map<nat, PolicyDecision>, now: nat, nextId: nat)

  const EMPTY := Service(map[], map[], map[], 0, 0)

  // ---- The operations on values ----

  /** `_transition` of one record. */
  function Moved(c: Check, state: CheckState, reason: string, now: nat, decision: Option<Decision>, proofId: string): Check {
    c.(state := state, updatedAt := now, decision := if decision.Some? then decision else c.decision,
       proofId := if proofId != "" then proofId else c.proofId, safeReason := reason)
  }

  /** The record as any reader finds it at a time: an open check that ran out becomes expired. */
  function AsOf(c: Check, now: nat): Check {
    if !Terminal(c.state) && now >= c.expiresAt then Moved(c, Expired, "authorization check expired", now, None, "") else c
  }

  function NewCheck(s: Service, session: string, tool: string, resource: string, key: string, ttl: int): Check {
    Check(s.nextId, key, session, tool, resource, Created, s.now, s.now, s.now + ttl, None, "", "")
  }

  /** `get`; `None` is the `KeyError`. */
  function GetCheck(s: Service, id: nat): Option<Service> {
    if id !in s.checks then None else Some(s.(checks := s.checks[id := AsOf(s.checks[id], s.now)]))
  }

  /** `create`, and the id it returns. */
  function CreateCheck(s: Service, session: string, tool: string, resource: string, key: string, ttl: int): (r: (Service, nat)) {
    if (session, key) in s.index then
      var id := s.index[(session, key)];
      (match GetCheck(s, id) case None => s case Some(t) => t, id)
    else
      (s.(checks := s.checks[s.nextId := NewCheck(s, session, tool, resource, key, ttl)],
          index := s.index[(session, key) := s.nextId], nextId := s.nextId + 1), s.nextId)
  }

  /** An open check takes its decision, or is left behind evaluating when the policy raises. */
  function Judge(s: Service, id: nat, decided: Result<PolicyDecision>): Service
    requires id in s.checks
  {
    var c := s.checks[id];
    match decided
    case Err(_) => s.(checks := s.checks[id := Moved(c, PolicyEvaluating, "policy engine evaluating", s.now, None, "")])
    case Ok(d) =>
      s.(checks := s.checks[id := Moved(c, StateFor(d.decision), d.reason, s.now, Some(d.decision), d.proofHash)],
         decisions := s.decisions[id := d])
  }

  predicate Settled(state: CheckState) {
    Terminal(state) || state == WaitingForHuman
  }

  /** `evaluate`, and the id it returns; `decided` is what `decide` answers or raises. */
  function EvaluateCheck(
    s: Service, session: string, tool: string, resource: string, key: string, ttl: int, decided: Result<PolicyDecision>)
    : (r: (Service, nat))
  {
    var (t, id) := CreateCheck(s, session, tool, resource, key, ttl);
    if id !in t.checks || Settled(t.checks[id].state) then (t, id) else (Judge(t, id, decided), id)
  }

  /** `cancel`; `None` is the `KeyError`. */
  function CancelCheck(s: Service, id: nat, reason: string): Option<Service> {
    match GetCheck(s, id)
    case None => None
    case Some(t) =>
      Some(if id !in t.checks || Terminal(t.checks[id].state) then t
           else t.(checks := t.checks[id := Moved(t.checks[id], Cancelled, reason, t.now, None, "")]))
  }

  // ---- The invariant ----

  /** The stored decision, if any. */
  function Stored(s: Service, id: nat): Option<PolicyDecision> {
    if id in s.decisions then Some(s.decisions[id]) else None
  }

  /** A record agrees with its stored decision. */
  predicate Coherent(c: Check, stored: Option<PolicyDecision>) {
    && c.decision == (if stored.Some? then Some(stored.value.decision) else None)
    && c.proofId == (if stored.Some? then stored.value.proofHash else "")
    && match c.state
       case Created => stored.None?
       case PolicyEvaluating => stored.None?
       case FactsCompiled => false
       case Pending => false
       case Expired => stored.Some? ==> stored.value.decision == EscalateHuman
       case Cancelled => stored.Some? ==> stored.value.decision == EscalateHuman
       case _ => stored.Some? && c.state == StateFor(stored.value.decision)
  }

  /** An index entry points to the check with that session and key. */
  predicate Indexed(s: Service, k: (string, string)) {
    k in s.index && s.index[k] in s.checks && s.checks[s.index[k]].session == k.0 && s.checks[s.index[k]].key == k.1
  }

  /** A check is filed under its id and under its session and key, and agrees with its decision. */
  predicate Filed(s: Service, id: nat) {
    && id in s.checks && s.checks[id].id == id && id < s.nextId
    && (s.checks[id].session, s.checks[id].key) in s.index && s.index[(s.checks[id].session, s.checks[id].key)] == id
    && Coherent(s.checks[id], Stored(s, id))
  }

  /** The index and the checks are in one-to-one correspondence, and every record is coherent. */
  ghost predicate Inv(s: Service) {
    && (forall k :: k in s.index ==> Indexed(s, k))
    && (forall id :: id in s.checks ==> Filed(s, id))
    && (forall id :: id in s.decisions ==> id in s.checks)
  }

  /** A state is executable exactly when the stored decision is, with the matching proof. */
  lemma ExecutableIffStored(s: Service, id: nat)
    requires Inv(s) && id in s.checks
    ensures ExecutableState(s.checks[id].state)
       <==> Stored(s, id).Some? && Executable(Stored(s, id).value.decision) && s.checks[id].proofId == Stored(s, id).value.proofHash
    ensures Stored(s, id).Some? && Executable(Stored(s, id).value.decision)
        ==> PassesAssertExecutable(Stored(s, id).value.decision, s.checks[id].state)
  {
  }

  // ---- How a service evolves ----

  predicate SameIdentity(a: Check, b: Check) {
    && a.id == b.id && a.key == b.key && a.session == b.session && a.tool == b.tool && a.resource == b.resource
    && a.createdAt == b.createdAt && a.expiresAt == b.expiresAt
  }

  /** What may happen to one record. */
  predicate CheckEvolves(a: Check, b: Check) {
    && SameIdentity(a, b)
    && (Terminal(a.state) ==> b == a)
    && (a.state == WaitingForHuman ==> b == a || (b.state in {Expired, Cancelled} && b.decision == a.decision && b.proofId == a.proofId))
    && (a.decision.Some? ==> b.decision == a.decision && b.proofId == a.proofId)
  }

  ghost predicate Evolves(a: Service, b: Service) {
    && a.now <= b.now && a.nextId <= b.nextId
    && (forall id :: id in a.checks ==> id in b.checks && CheckEvolves(a.checks[id], b.checks[id]))
    && (forall k :: k in a.index ==> k in b.index && b.index[k] == a.index[k])
    && (forall id :: id in a.decisions ==> id in b.decisions && b.decisions[id] == a.decisions[id])
  }

  lemma EvolvesTransitive(a: Service, b: Service, c: Service)
    requires Evolves(a, b) && Evolves(b, c)
    ensures Evolves(a, c)
  {
  }

  /** One record rewritten, and possibly its first decision stored. */
  function Rewritten(s: Service, id: nat, c: Check, decision: Option<PolicyDecision>): Service {
    s.(checks := s.checks[id := c], decisions := if decision.Some? then s.decisions[id := decision.value] else s.decisions)
  }

  lemma RewriteKeepsInv(s: Service, id: nat, c: Check, decision: Option<PolicyDecision>)
    requires Inv(s) && id in s.checks && CheckEvolves(s.checks[id], c)
    requires decision.Some? ==> id !in s.decisions
    requires Coherent(c, if decision.Some? then decision else Stored(s, id))
    ensures Inv(Rewritten(s, id, c, decision)) && Evolves(s, Rewritten(s, id, c, decision))
  {
    hide Coherent;
    var t := Rewritten(s, id, c, decision);
    RewriteKeepsFiled(s, id, c, decision);
    forall k | k in t.index ensures Indexed(t, k) {
      assert Indexed(s, k);
    }
  }

  lemma RewriteKeepsFiled(s: Service, id: nat, c: Check, decision: Option<PolicyDecision>)
    requires Inv(s) && id in s.checks && CheckEvolves(s.checks[id], c)
    requires Coherent(c, if decision.Some? then decision else Stored(s, id))
    ensures forall other :: other in s.checks ==> Filed(Rewritten(s, id, c, decision), other)
  {
  }

  lemma GetKeepsInv(s: Service, id: nat)
    requires Inv(s) && GetCheck(s, id).Some?
    ensures Inv(GetCheck(s, id).value) && Evolves(s, GetCheck(s, id).value)
  {
    assert Filed(s, id);
    RewriteKeepsInv(s, id, AsOf(s.checks[id], s.now), None);
  }

  lemma CreateKeepsInv(s: Service, session: string, tool: string, resource: string, key: string, ttl: int)
    requires Inv(s)
    ensures var (t, id) := CreateCheck(s, session, tool, resource, key, ttl);
      Inv(t) && Evolves(s, t) && id in t.checks && t.index[(session, key)] == id && t.now == s.now
  {
    hide Coherent, AsOf, CheckEvolves;
    if (session, key) in s.index {
      KnownIdsAreFiled(s, session, key);
      GetKeepsInv(s, s.index[(session, key)]);
    } else {
      var (t, id) := CreateCheck(s, session, tool, resource, key, ttl);
      forall other | other in s.checks ensures CheckEvolves(s.checks[other], t.checks[other]) {
        CheckStays(s.checks[other]);
      }
      FreshIdIsUnused(s);
      NewCheckIsFiled(s, session, tool, resource, key, ttl);
      forall k | k in t.index ensures Indexed(t, k) {
        if k != (session, key) {
          assert Indexed(s, k);
        }
      }
    }
  }

  lemma CheckStays(c: Check)
    ensures CheckEvolves(c, c)
  {
  }

  lemma FreshIdIsUnused(s: Service)
    requires Inv(s)
    ensures s.nextId !in s.checks && s.nextId !in s.decisions
  {
  }

  /** A new check joins the others. */
  lemma NewCheckIsFiled(s: Service, session: string, tool: string, resource: string, key: string, ttl: int)
    requires Inv(s) && (session, key) !in s.index
    ensures var t := CreateCheck(s, session, tool, resource, key, ttl).0; forall other :: other in t.checks ==> Filed(t, other)
  {
  }

  lemma KnownIdsAreFiled(s: Service, session: string, key: string)
    requires Inv(s) && (session, key) in s.index
    ensures s.index[(session, key)] in s.checks && s.checks[s.index[(session, key)]].id == s.index[(session, key)]
  {
  }

  lemma FiledUnderId(s: Service, id: nat)
    requires Inv(s) && id in s.checks
    ensures s.checks[id].id == id
  {
  }

  lemma EvaluatingIsUndecided(s: Service, id: nat)
    requires Inv(s) && id in s.checks && s.checks[id].state == PolicyEvaluating
    ensures id !in s.decisions
  {
  }

  /** What `create` returns is settled only if it has not run out. */
  lemma CreatedIsCurrent(s: Service, session: string, tool: string, resource: string, key: string, ttl: int)
    requires Inv(s)
    ensures var (t, id) := CreateCheck(s, session, tool, resource, key, ttl);
      id in t.checks && (Settled(t.checks[id].state) ==> AsOf(t.checks[id], t.now) == t.checks[id])
  {
  }

  lemma EvaluateKeepsInv(
    s: Service, session: string, tool: string, resource: string, key: string, ttl: int, decided: Result<PolicyDecision>)
    requires Inv(s)
    ensures var (t, id) := EvaluateCheck(s, session, tool, resource, key, ttl, decided);
      Inv(t) && Evolves(s, t) && id in t.checks && t.index[(session, key)] == id
  {
    hide CreateCheck, GetCheck, AsOf, Evolves, Indexed;
    CreateKeepsInv(s, session, tool, resource, key, ttl);
    var (t, id) := CreateCheck(s, session, tool, resource, key, ttl);
    assert Filed(t, id);
    if !Settled(t.checks[id].state) {
      var u := Judge(t, id, decided);
      RewriteKeepsInv(t, id, u.checks[id], if decided.Ok? then Some(decided.value) else None);
      EvolvesTransitive(s, t, u);
    }
  }

  lemma CancelKeepsInv(s: Service, id: nat, reason: string)
    requires Inv(s) && CancelCheck(s, id, reason).Some?
    ensures Inv(CancelCheck(s, id, reason).value) && Evolves(s, CancelCheck(s, id, reason).value)
  {
    GetKeepsInv(s, id);
    var t := GetCheck(s, id).value;
    assert Filed(t, id);
    if !Terminal(t.checks[id].state) {
      RewriteKeepsInv(t, id, Moved(t.checks[id], Cancelled, reason, t.now, None, ""), None);
      EvolvesTransitive(s, t, CancelCheck(s, id, reason).value);
    }
  }

  // ---- Runs ----

  datatype Step =
    | CreateStep(session: string, tool: string, resource: string, key: string, ttl: int)
    | EvaluateStep(session: string, tool: string, resource: string, key: string, ttl: int, decided: Result<PolicyDecision>)
    | GetStep(id: nat)
    | CancelStep(id: nat, reason: string)
    | TickStep(seconds: nat)

  /** One call; a call that raises on an unknown id changes nothing. */
  function Apply(s: Service, step: Step): Service {
    match step
    case CreateStep(session, tool, resource, key, ttl) => CreateCheck(s, session, tool, resource, key, ttl).0
    case EvaluateStep(session, tool, resource, key, ttl, decided) => EvaluateCheck(s, session, tool, resource, key, ttl, decided).0
    case GetStep(id) => GetCheck(s, id).GetOr(s)
    case CancelStep(id, reason) => CancelCheck(s, id, reason).GetOr(s)
    case TickStep(seconds) => s.(now := s.now + seconds)
  }

  function Run(s: Service, steps: seq<Step>): Service {
    if steps == [] then s else Apply(Run(s, steps[..|steps| - 1]), steps[|steps| - 1])
  }

  lemma StepKeepsInv(s: Service, step: Step)
    requires Inv(s)
    ensures Inv(Apply(s, step)) && Evolves(s, Apply(s, step))
  {
    match step {
      case CreateStep(session, tool, resource, key, ttl) => CreateKeepsInv(s, session, tool, resource, key, ttl);
      case EvaluateStep(session, tool, resource, key, ttl, decided) => EvaluateKeepsInv(s, session, tool, resource, key, ttl, decided);
      case GetStep(id) => if id in s.checks { GetKeepsInv(s, id); }
      case CancelStep(id, reason) => if id in s.checks { CancelKeepsInv(s, id, reason); }
      case TickStep(seconds) =>
        forall id | id in s.checks ensures Coherent(s.checks[id], Stored(Apply(s, step), id)) {
          assert Filed(s, id);
        }
    }
  }

  /** Over every run: identities never change, terminal records stay, waiting ends only in expiry or cancellation. */
  lemma {:induction false} RunEvolves(s: Service, steps: seq<Step>)
    requires Inv(s)
    ensures Inv(Run(s, steps)) && Evolves(s, Run(s, steps))
  {
    hide Inv, Evolves, Apply;
    if steps == [] {
      assert Evolves(s, s) by {
        EvolvesReflexive(s);
      }
    } else {
      var before := steps[..|steps| - 1];
      RunEvolves(s, before);
      StepKeepsInv(Run(s, before), steps[|steps| - 1]);
      EvolvesTransitive(s, Run(s, before), Run(s, steps));
    }
  }

  lemma EvolvesReflexive(s: Service)
    ensures Evolves(s, s)
  {
  }

  /** Every run from the empty service keeps the invariant. */
  lemma EveryRunKeepsInv(steps: seq<Step>)
    ensures Inv(Run(EMPTY, steps))
  {
    RunEvolves(EMPTY, steps);
  }

  // ---- Idempotent evaluation ----

  /** The check id that a call returns. */
  function Returned(s: Service, step: Step): Option<nat> {
    match step
    case CreateStep(session, tool, resource, key, ttl) => Some(CreateCheck(s, session, tool, resource, key, ttl).1)
    case EvaluateStep(session, tool, resource, key, ttl, decided) => Some(EvaluateCheck(s, session, tool, resource, key, ttl, decided).1)
    case GetStep(id) => if id in s.checks then Some(id) else None
    case CancelStep(id, _) => if id in s.checks then Some(id) else None
    case TickStep(_) => None
  }

  predicate Asks(step: Step, session: string, key: string) {
    (step.EvaluateStep? || step.CreateStep?) && step.session == session && step.key == key
  }

  /** Two calls with the same session and idempotency key, however far apart, return the same check. */
  lemma SameKeySameCheck(s: Service, first: Step, between: seq<Step>, second: Step, session: string, key: string)
    requires Inv(s) && Asks(first, session, key) && Asks(second, session, key)
    ensures Returned(s, first) == Returned(Run(Apply(s, first), between), second)
  {
    var t := Apply(s, first);
    StepKeepsInv(s, first);
    RunEvolves(t, between);
    var u := Run(t, between);
    assert t.index[(session, key)] == Returned(s, first).value by {
      IndexedAfter(s, first, session, key);
    }
    assert u.index[(session, key)] == t.index[(session, key)];
    StepKeepsInv(u, second);
    IndexedAfter(u, second, session, key);
  }

  lemma IndexedAfter(s: Service, step: Step, session: string, key: string)
    requires Inv(s) && Asks(step, session, key)
    ensures Returned(s, step).Some? && (session, key) in Apply(s, step).index
    ensures Apply(s, step).index[(session, key)] == Returned(s, step).value
  {
  }

  /**
   * Once a decision is stored, no later call and no later context changes it: not the stored decision, and not what the
   * record says about it.
   */
  lemma DecisionIsFinal(s: Service, id: nat, steps: seq<Step>)
    requires Inv(s) && id in s.decisions
    ensures Stored(Run(s, steps), id) == Stored(s, id)
    ensures id in s.checks && id in Run(s, steps).checks
    ensures Run(s, steps).checks[id].decision == Some(s.decisions[id].decision)
    ensures Run(s, steps).checks[id].proofId == s.decisions[id].proofHash
  {
    RunEvolves(s, steps);
    assert Filed(s, id);
    assert CheckEvolves(s.checks[id], Run(s, steps).checks[id]);
  }

  /** When the policy raises, an open check is left evaluating, without a decision. */
  lemma FailureLeavesEvaluating(s: Service, session: string, tool: string, resource: string, key: string, ttl: int, why: string)
    requires Inv(s) && (session, key) !in s.index
    ensures var (t, id) := EvaluateCheck(s, session, tool, resource, key, ttl, Err(why));
      id in t.checks && t.checks[id].state == PolicyEvaluating && id !in t.decisions
  {
  }

  /** A check left evaluating is resumed: while it lives, the next evaluation that gets an answer decides it. */
  lemma ResumedAfterFailure(s: Service, session: string, tool: string, resource: string, key: string, ttl: int, d: PolicyDecision)
    requires Inv(s) && Indexed(s, (session, key))
    requires s.checks[s.index[(session, key)]].state == PolicyEvaluating && s.now < s.checks[s.index[(session, key)]].expiresAt
    ensures var (t, id) := EvaluateCheck(s, session, tool, resource, key, ttl, Ok(d));
      && id == s.index[(session, key)] && id !in s.decisions && id in t.checks && Stored(t, id) == Some(d)
      && t.checks[id].state == StateFor(d.decision) && t.checks[id].decision == Some(d.decision)
  {
  }

  // ---- The class ----

  class AuthorizationCheckService {
    var checks: map<nat, Check>
    var index: map<(string, string), nat>
    var decisions: map<nat, PolicyDecision>
    var now: nat
    var nextId: nat

    function State(): Service
      reads this
    {
      Service(checks, index, decisions, now, nextId)
    }

    constructor ()
      ensures State() == EMPTY && Inv(State())
    {
      checks, index, decisions, now, nextId := map[], map[], map[], 0, 0;
    }

    method Create(session: string, tool: string, resource: string, key: string, ttl: int) returns (check: Check)
      requires Inv(State())
      modifies this
      ensures Inv(State()) && Evolves(old(State()), State())
      ensures (State(), check.id) == CreateCheck(old(State()), session, tool, resource, key, ttl)
      ensures check.id in checks && check == checks[check.id]
    {
      hide Inv, Evolves;
      CreateKeepsInv(State(), session, tool, resource, key, ttl);
      if (session, key) in index {
        var id := index[(session, key)];
        assert id in checks by {
          KnownIdsAreFiled(State(), session, key);
        }
        var r := Get(id);
        check := r.value;
        assert check.id == id by {
          assert old(checks)[id].id == id by {
            KnownIdsAreFiled(old(State()), session, key);
          }
        }
      } else {
        check := Check(nextId, key, session, tool, resource, Created, now, now, now + ttl, None, "", "");
        checks := checks[check.id := check];
        index := index[(session, key) := check.id];
        nextId := nextId + 1;
      }
    }

    /** `decided` is what `decide` answers for the context of the call, or the exception it raises. */
    method Evaluate(session: string, tool: string, resource: string, key: string, ttl: int, decided: Result<PolicyDecision>)
      returns (r: Result<Check>)
      requires Inv(State())
      modifies this
      ensures Inv(State()) && Evolves(old(State()), State())
      ensures State() == EvaluateCheck(old(State()), session, tool, resource, key, ttl, decided).0
      ensures r.Ok? ==> r.value.id == EvaluateCheck(old(State()), session, tool, resource, key, ttl, decided).1
                        && r.value.id in checks && r.value == checks[r.value.id]
      ensures r.Err? ==> decided.Err? && EvaluateCheck(old(State()), session, tool, resource, key, ttl, decided).1 !in decisions
      ensures r.Err? ==> r.error == decided.error
      ensures var id := EvaluateCheck(old(State()), session, tool, resource, key, ttl, decided).1;
        id in checks && (r.Err? <==> checks[id].state == PolicyEvaluating)
    {
      hide Inv, Evolves, CreateCheck, AsOf;
      EvaluateKeepsInv(State(), session, tool, resource, key, ttl, decided);
      CreateKeepsInv(State(), session, tool, resource, key, ttl);
      CreatedIsCurrent(State(), session, tool, resource, key, ttl);
      var check := Create(session, tool, resource, key, ttl);
      if Terminal(check.state) || check.state == WaitingForHuman {
        ghost var created := checks;
        check := ExpireIfNeeded(check);
        assert checks == created;
        return Ok(check);
      }
      ghost var created := State();
      check := Transition(check, FactsCompiled, "compiled normalized policy facts", None, "");
      check := Transition(check, PolicyEvaluating, "policy engine evaluating", None, "");
      if decided.Err? {
        assert State() == Judge(created, check.id, decided);
        EvaluatingIsUndecided(State(), check.id);
        return Err(decided.error);
      }
      var d := decided.value;
      decisions := decisions[check.id := d];
      check := Transition(check, StateFor(d.decision), d.reason, Some(d.decision), d.proofHash);
      assert State() == Judge(created, check.id, decided);
      r := Ok(check);
    }

    method Get(id: nat) returns (r: Option<Check>)
      requires Inv(State())
      modifies this`checks
      ensures r.Some? <==> GetCheck(old(State()), id).Some?
      ensures r.Some? ==> Some(State()) == GetCheck(old(State()), id) && id in checks && r.value == checks[id]
      ensures r.Some? ==> Inv(State()) && Evolves(old(State()), State())
      ensures r.None? ==> State() == old(State())
    {
      if id !in checks {
        return None;
      }
      GetKeepsInv(State(), id);
      var check := ExpireIfNeeded(checks[id]);
      r := Some(check);
    }

    method Cancel(id: nat, reason: string) returns (r: Option<Check>)
      requires Inv(State())
      modifies this`checks
      ensures r.Some? <==> CancelCheck(old(State()), id, reason).Some?
      ensures r.Some? ==> Some(State()) == CancelCheck(old(State()), id, reason) && id in checks && r.value == checks[id]
      ensures r.Some? ==> Inv(State()) && Evolves(old(State()), State())
      ensures r.None? ==> State() == old(State())
    {
      hide Inv, Evolves;
      if id in checks {
        CancelKeepsInv(State(), id, reason);
      }
      r := Get(id);
      if r.Some? && !Terminal(r.value.state) {
        FiledUnderId(State(), id);
        var check := Transition(r.value, Cancelled, reason, None, "");
        r := Some(check);
      }
    }

    method CanExecute(id: nat) returns (r: Option<bool>)
      requires Inv(State())
      modifies this`checks
      ensures r.Some? <==> id in old(checks)
      ensures r.Some? ==> Some(State()) == GetCheck(old(State()), id) && Inv(State())
      ensures r.Some? ==> (r.value <==> Stored(State(), id).Some? && Executable(Stored(State(), id).value.decision))
      ensures r.None? ==> State() == old(State())
    {
      var check := Get(id);
      if check.Some? {
        ExecutableIffStored(State(), id);
        r := Some(ExecutableState(check.value.state));
      } else {
        r := None;
      }
    }

    method ExpireIfNeeded(check: Check) returns (r: Check)
      requires check.id in checks && checks[check.id] == check
      modifies this`checks
      ensures r == AsOf(check, now) && checks == old(checks)[check.id := r]
    {
      if Terminal(check.state) {
        return check;
      }
      if now >= check.expiresAt {
        r := Transition(check, Expired, "authorization check expired", None, "");
        return;
      }
      r := check;
    }

    method Transition(check: Check, state: CheckState, reason: string, decision: Option<Decision>, proofId: string) returns (r: Check)
      modifies this`checks
      ensures r == Moved(check, state, reason, now, decision, proofId)
      ensures checks == old(checks)[check.id := r]
    {
      r := check.(
        state := state, updatedAt := now, decision := if decision.Some? then decision else check.decision,
        proofId := if proofId != "" then proofId else check.proofId, safeReason := reason);
      checks := checks[r.id := r];
    }

    /** The clock is monotone. */
    method Tick(seconds: nat)
      modifies this`now
      ensures State() == Apply(old(State()), TickStep(seconds))
    {
      now := now + seconds;
    }
  }
}
