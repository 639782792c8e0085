/** Opaque credential leases (platform/credential_broker.py): minting, and bounded use under a clock. */
module CredentialBroker {
  import opened Wrappers
  import opened Json
  import opened Canonical

  datatype ProviderStatus = Ready | SetupRequired | Unavailable

  datatype Readiness = Readiness(status: ProviderStatus, providerModes: seq<string>, setupRequired: seq<string>)

  datatype Binding = Binding(credentialRef: string, provider: string, credentialClass: string, ownerTeam: string, injectionMode: string)

  datatype MintRequest = MintRequest(
    session: string, tool: string, scope: string, resource: string, binding: Binding, ttl: int, maxUses: int, wouldExpose: bool)

  /** Identifiers are fresh naturals. */
  datatype Lease = Lease(
    id: nat, session: string, tool: string, scope: string, resource: string, credentialRef: string, credentialRefHash: string,
    provider: string, injectionMode: string, providerMode: string, operation: nat, expiresAt: int, maxUses: int,
    secretExposed: bool)

  datatype LeaseRecord = LeaseRecord(lease: Lease, expiresAt: int, usesRemaining: int)

  datatype MintState = Minted | MintDenied | MintEscalated
  datatype MintResult = MintResult(state: MintState, reason: string, lease: Option<Lease>, setupRequired: seq<string>)

  datatype UseRequest = UseRequest(lease: nat, session: string, tool: string, scope: string, resource: string, caller: string)
  datatype UseState = UseApproved | UseDenied | UseExpired | UseNotFound | UseExhausted
  datatype UseResult = UseResult(state: UseState, reason: string, lease: Option<Lease>, remaining: Option<int>)

  /** An approved use, and when it was approved. */
  datatype Approval = Approval(request: UseRequest, at: nat)

  /** The broker's fields, with its clock, its fresh identifiers and the uses it approved so far. */
  datatype Broker = Broker(readiness: Readiness, leases: map<nat, LeaseRecord>, now: nat, nextId: nat, history: seq<Approval>)

  // ---- Choosing a provider mode ----

  /** `_first_available` */
  function FirstAvailable(available: set<string>, preferred: seq<string>): (r: Option<string>)
    ensures r.Some? ==> r.value in available && r.value in preferred
    ensures r.None? ==> forall m :: m in preferred ==> m !in available
  {
    if preferred == [] then None
    else if preferred[0] in available then Some(preferred[0])
    else FirstAvailable(available, preferred[1..])
  }

  /** The modes that can serve an injection mode, most preferred first. */
  function Preferred(injectionMode: string): seq<string> {
    if injectionMode == "onepassword_mcp_environment" then ["onepassword_mcp_environment"]
    else if injectionMode == "process_env" then ["onepassword_mcp_environment", "op_run_process_env"]
    else if injectionMode == "gateway_header" then
      ["op_cli_secret_reference", "onepassword_sdk_service_account", "onepassword_sdk_desktop"]
    else if injectionMode in {"stdin_or_fd", "local_socket", "provider_native"} then
      ["onepassword_sdk_service_account", "op_cli_secret_reference", "op_run_process_env", "onepassword_mcp_environment"]
    else []
  }

  /** `choose_provider_mode`: a listed mode that serves the injection mode, whenever the provider is ready and has one. */
  function ChooseProviderMode(readiness: Readiness, injectionMode: string): (r: Option<string>)
    ensures r.Some? ==> readiness.status == Ready && r.value in readiness.providerModes && r.value in Preferred(injectionMode)
    ensures r.None? <==> readiness.status != Ready || forall m :: m in readiness.providerModes ==> m !in Preferred(injectionMode)
  {
    if readiness.status != Ready then None
    else FirstAvailable(set m <- readiness.providerModes :: m, Preferred(injectionMode))
  }

  /** Of two modes that both serve and are both listed, the earlier one in the preference is never passed over. */
  lemma {:induction false} EarliestIsChosen(available: set<string>, preferred: seq<string>, i: nat)
    requires i < |preferred| && preferred[i] in available
    ensures FirstAvailable(available, preferred).Some?
    ensures exists k :: 0 <= k <= i && preferred[k] == FirstAvailable(available, preferred).value
                        && forall j :: 0 <= j < k ==> preferred[j] !in available
  {
    if preferred[0] !in available {
      EarliestIsChosen(available, preferred[1..], i - 1);
      var k :| 0 <= k <= i - 1 && preferred[1..][k] == FirstAvailable(available, preferred[1..]).value
               && forall j :: 0 <= j < k ==> preferred[1..][j] !in available;
      assert preferred[k + 1] == FirstAvailable(available, preferred).value;
      forall j | 0 <= j < k + 1 ensures preferred[j] !in available {
        if j > 0 {
          assert preferred[j] == preferred[1..][j - 1];
        }
      }
    }
  }

  // ---- Minting ----

  function Blocked(readiness: Readiness): MintState {
    if readiness.status == SetupRequired then MintEscalated else MintDenied
  }

  function RefHash(sha: Value -> string, b: Binding): string {
    StableHash(sha, Obj([Field("credential_ref_id", Str(b.credentialRef)), Field("provider", Str(b.provider)),
                         Field("credential_class", Str(b.credentialClass))]))
  }

  predicate Mintable(readiness: Readiness, r: MintRequest) {
    !r.wouldExpose && r.ttl > 0 && r.maxUses > 0 && ChooseProviderMode(readiness, r.binding.injectionMode).Some?
  }

  function NewLease(sha: Value -> string, b: Broker, r: MintRequest): Lease
    requires Mintable(b.readiness, r)
  {
    Lease(b.nextId, r.session, r.tool, r.scope, r.resource, r.binding.credentialRef, RefHash(sha, r.binding),
          r.binding.provider, r.binding.injectionMode, ChooseProviderMode(b.readiness, r.binding.injectionMode).value,
          b.nextId + 1, b.now + r.ttl, r.maxUses, false)
  }

  /** The broker after `mint_lease`. */
  function Mint(sha: Value -> string, b: Broker, r: MintRequest): Broker {
    if !Mintable(b.readiness, r) then b
    else
      var lease := NewLease(sha, b, r);
      b.(leases := b.leases[lease.id := LeaseRecord(lease, lease.expiresAt, r.maxUses)], nextId := b.nextId + 2)
  }

  // ---- Using ----

  const CALLERS: set<string> := {"gateway", "broker", "exec_wrapper", "mcp_launcher"}

  predicate Bound(lease: Lease, r: UseRequest) {
    r.session == lease.session && r.tool == lease.tool && r.scope == lease.scope && r.resource == lease.resource
  }

  /** `_lease_binding_mismatch`: the first of the four that differs. */
  function Mismatch(lease: Lease, r: UseRequest): (m: string)
    ensures m == "" <==> Bound(lease, r)
  {
    if r.session != lease.session then "credential lease session_id binding mismatch"
    else if r.tool != lease.tool then "credential lease tool_id binding mismatch"
    else if r.scope != lease.scope then "credential lease scope binding mismatch"
    else if r.resource != lease.resource then "credential lease resource_id binding mismatch"
    else ""
  }

  /** What `authorize_use` answers. */
  function UseStateOf(b: Broker, r: UseRequest): UseState {
    if r.lease !in b.leases then UseNotFound
    else
      var rec := b.leases[r.lease];
      if !Bound(rec.lease, r) || rec.lease.secretExposed || r.caller !in CALLERS then UseDenied
      else if b.now >= rec.expiresAt then UseExpired
      else if rec.usesRemaining <= 0 then UseExhausted
      else UseApproved
  }

  /** The broker after `authorize_use`: only an approval changes anything, and only the count of its lease. */
  function Use(b: Broker, r: UseRequest): Broker {
    if UseStateOf(b, r) != UseApproved then b
    else
      var rec := b.leases[r.lease];
      b.(leases := b.leases[r.lease := rec.(usesRemaining := rec.usesRemaining - 1)], history := b.history + [Approval(r, b.now)])
  }

  // ---- Runs ----

  datatype Step = MintStep(mint: MintRequest) | UseStep(use: UseRequest) | TickStep(seconds: nat)

  function Apply(sha: Value -> string, b: Broker, step: Step): Broker {
    match step
    case MintStep(r) => Mint(sha, b, r)
    case UseStep(r) => Use(b, r)
    case TickStep(seconds) => b.(now := b.now + seconds)
  }

  function Run(sha: Value -> string, b: Broker, steps: seq<Step>): Broker {
    if steps == [] then b else Apply(sha, Run(sha, b, steps[..|steps| - 1]), steps[|steps| - 1])
  }

  /** How many uses of the lease were approved. */
  function Approved(history: seq<Approval>, lease: nat): nat {
    if history == [] then 0
    else
      var n := |history| - 1;
      Approved(history[..n], lease) + (if history[n].request.lease == lease then 1 else 0)
  }

  lemma ApprovedAppend(history: seq<Approval>, a: Approval, lease: nat)
    ensures Approved(history + [a], lease) == Approved(history, lease) + (if a.request.lease == lease then 1 else 0)
  {
  }

  /** The remaining uses and the approvals make up the maximum; the provider mode is one that the readiness lists. */
  predicate LeaseOk(b: Broker, id: nat)
    requires id in b.leases
  {
    var rec := b.leases[id];
    && rec.lease.id == id && id < b.nextId
    && rec.usesRemaining >= 0 && rec.usesRemaining + Approved(b.history, id) == rec.lease.maxUses
    && b.readiness.status == Ready && rec.lease.providerMode in b.readiness.providerModes
    && rec.lease.providerMode in Preferred(rec.lease.injectionMode)
    && !rec.lease.secretExposed
  }

  /** An approval matches its lease, comes from an execution boundary, and comes strictly before the expiry. */
  predicate ApprovalOk(b: Broker, a: Approval) {
    && a.request.lease in b.leases && Bound(b.leases[a.request.lease].lease, a.request)
    && a.request.caller in CALLERS && a.at < b.leases[a.request.lease].expiresAt && a.at <= b.now
  }

  ghost predicate Inv(b: Broker) {
    && (forall id :: id in b.leases ==> LeaseOk(b, id))
    && (forall id :: id >= b.nextId ==> Approved(b.history, id) == 0)
    && (forall k :: 0 <= k < |b.history| ==> ApprovalOk(b, b.history[k]))
  }

  predicate RecordEvolves(a: LeaseRecord, b: LeaseRecord) {
    b.lease == a.lease && b.expiresAt == a.expiresAt && b.usesRemaining <= a.usesRemaining
  }

  /** Leases never change, counts only fall, and history only grows. */
  ghost predicate Evolves(a: Broker, b: Broker) {
    && b.readiness == a.readiness && a.now <= b.now && a.nextId <= b.nextId && a.history <= b.history
    && (forall id :: id in a.leases ==> id in b.leases && RecordEvolves(a.leases[id], b.leases[id]))
    && (forall id :: id in a.leases && a.now >= a.leases[id].expiresAt ==> b.leases[id] == a.leases[id])
  }

  lemma FreshId(b: Broker)
    requires Inv(b)
    ensures b.nextId !in b.leases
  {
  }

  lemma MintKeepsInv(sha: Value -> string, b: Broker, r: MintRequest)
    requires Inv(b)
    ensures Inv(Mint(sha, b, r)) && Evolves(b, Mint(sha, b, r))
  {
    hide Approved, RefHash, Preferred, FirstAvailable, ChooseProviderMode;
    var t := Mint(sha, b, r);
    FreshId(b);
    forall id | id in t.leases ensures LeaseOk(t, id) {
      if id in b.leases {
        assert LeaseOk(b, id);
      }
    }
    forall k | 0 <= k < |t.history| ensures ApprovalOk(t, t.history[k]) {
      assert ApprovalOk(b, b.history[k]);
    }
  }

  lemma UseKeepsInv(b: Broker, r: UseRequest)
    requires Inv(b)
    ensures Inv(Use(b, r)) && Evolves(b, Use(b, r))
  {
    hide Approved, Preferred, FirstAvailable, ChooseProviderMode, CALLERS;
    var t := Use(b, r);
    forall id ensures Approved(t.history, id) == Approved(b.history, id) + (if t != b && id == r.lease then 1 else 0) {
      ApprovedAppend(b.history, Approval(r, b.now), id);
    }
    forall id | id in t.leases ensures LeaseOk(t, id) {
      assert LeaseOk(b, id);
    }
    if UseStateOf(b, r) == UseApproved {
      assert LeaseOk(b, r.lease);
    }
    forall k | 0 <= k < |t.history| ensures ApprovalOk(t, t.history[k]) {
      if k < |b.history| {
        assert ApprovalOk(b, b.history[k]);
      }
    }
  }

  lemma TickKeepsInv(b: Broker, seconds: nat)
    requires Inv(b)
    ensures Inv(b.(now := b.now + seconds)) && Evolves(b, b.(now := b.now + seconds))
  {
  }

  lemma EvolvesTransitive(a: Broker, b: Broker, c: Broker)
    requires Evolves(a, b) && Evolves(b, c)
    ensures Evolves(a, c)
  {
  }

  lemma EvolvesReflexive(b: Broker)
    ensures Evolves(b, b)
  {
  }

  /** Over every run: the bound holds for every lease, and no expired lease is used again. */
  lemma {:induction false} EveryRunIsBounded(sha: Value -> string, b: Broker, steps: seq<Step>)
    requires Inv(b)
    ensures Inv(Run(sha, b, steps)) && Evolves(b, Run(sha, b, steps))
  {
    hide Inv, Evolves, Mint, Use;
    EvolvesReflexive(b);
    if steps != [] {
      var before := steps[..|steps| - 1];
      EveryRunIsBounded(sha, b, before);
      var m := Run(sha, b, before);
      match steps[|steps| - 1] {
        case MintStep(r) => MintKeepsInv(sha, m, r);
        case UseStep(r) => UseKeepsInv(m, r);
        case TickStep(seconds) => TickKeepsInv(m, seconds);
      }
      EvolvesTransitive(b, m, Run(sha, b, steps));
    }
  }

  /** A fresh broker. */
  function Fresh(readiness: Readiness): (b: Broker) {
    Broker(readiness, map[], 0, 0, [])
  }

  lemma LeaseIsBounded(sha: Value -> string, readiness: Readiness, steps: seq<Step>, id: nat)
    requires id in Run(sha, Fresh(readiness), steps).leases
    ensures var b := Run(sha, Fresh(readiness), steps);
      && b.leases[id].usesRemaining + Approved(b.history, id) == b.leases[id].lease.maxUses
      && b.leases[id].usesRemaining >= 0
      && b.leases[id].lease.providerMode in readiness.providerModes
  {
    EveryRunIsBounded(sha, Fresh(readiness), steps);
    assert LeaseOk(Run(sha, Fresh(readiness), steps), id);
  }

  /** Once a lease has expired, no later use of it is approved. */
  lemma NoUseAfterExpiry(sha: Value -> string, b: Broker, steps: seq<Step>, id: nat)
    requires Inv(b) && id in b.leases && b.now >= b.leases[id].expiresAt
    ensures Approved(Run(sha, b, steps).history, id) == Approved(b.history, id)
  {
    EveryRunIsBounded(sha, b, steps);
    assert LeaseOk(b, id) && LeaseOk(Run(sha, b, steps), id);
  }

  /** The gateway's own first use of a lease that it just minted is always approved. */
  lemma FreshLeaseIsUsable(sha: Value -> string, b: Broker, r: MintRequest)
    requires Mintable(b.readiness, r)
    ensures UseStateOf(Mint(sha, b, r), UseRequest(b.nextId, r.session, r.tool, r.scope, r.resource, "gateway")) == UseApproved
  {
    hide ChooseProviderMode, RefHash;
  }

  // ---- The class ----

  class CredentialBroker {
    const sha: Value -> string
    const readiness: Readiness
    var leases: map<nat, LeaseRecord>
    var now: nat
    var nextId: nat
    ghost var history: seq<Approval>

    ghost function State(): Broker
      reads this
    {
      Broker(readiness, leases, now, nextId, history)
    }

    constructor (sha: Value -> string, readiness: Readiness)
      ensures State() == Fresh(readiness) && Inv(State()) && this.sha == sha
    {
      this.sha, this.readiness, leases, now, nextId, history := sha, readiness, map[], 0, 0, [];
    }

    method MintLease(request: MintRequest) returns (result: MintResult)
      requires Inv(State())
      modifies this`leases, this`nextId
      ensures Inv(State()) && State() == Mint(sha, old(State()), request)
      ensures result.state == Minted <==> Mintable(readiness, request)
      ensures result.state == MintEscalated <==>
                !request.wouldExpose && request.ttl > 0 && request.maxUses > 0 && readiness.status == SetupRequired
      ensures result.lease.Some? <==> result.state == Minted
      ensures result.setupRequired == if !request.wouldExpose && request.ttl > 0 && request.maxUses > 0 && result.state != Minted
                                      then readiness.setupRequired else []
      ensures result.lease.Some? ==> result.lease.value.id !in old(leases) && result.lease.value.id in leases
                                     && leases[result.lease.value.id].lease == result.lease.value
    {
      hide Inv, Preferred, FirstAvailable, ChooseProviderMode, RefHash;
      MintKeepsInv(sha, State(), request);
      if request.wouldExpose {
        return MintResult(MintDenied, "credential lease would expose secret material to the agent", None, []);
      }
      if request.ttl <= 0 {
        return MintResult(MintDenied, "credential lease TTL must be positive", None, []);
      }
      if request.maxUses <= 0 {
        return MintResult(MintDenied, "credential lease max_uses must be positive", None, []);
      }
      var mode := ChooseProviderMode(readiness, request.binding.injectionMode);
      if mode.None? {
        return MintResult(Blocked(readiness), "1Password provider is not ready for this credential injection mode", None,
                          readiness.setupRequired);
      }
      var expiresAt := now + request.ttl;
      var lease := Lease(
        nextId, request.session, request.tool, request.scope, request.resource, request.binding.credentialRef,
        RefHash(sha, request.binding), request.binding.provider, request.binding.injectionMode, mode.value, nextId + 1,
        expiresAt, request.maxUses, false);
      FreshId(State());
      leases := leases[lease.id := LeaseRecord(lease, expiresAt, request.maxUses)];
      nextId := nextId + 2;
      result := MintResult(Minted, "opaque credential lease minted; secret value remains broker-only", Some(lease), []);
    }

    method AuthorizeUse(request: UseRequest) returns (result: UseResult)
      requires Inv(State())
      modifies this`leases, this`history
      ensures Inv(State()) && State() == Use(old(State()), request)
      ensures result.state == UseStateOf(old(State()), request)
      ensures result.state != UseApproved ==> State() == old(State())
      ensures result.remaining == if result.state == UseApproved then Some(leases[request.lease].usesRemaining) else None
      ensures result.lease == if request.lease in leases then Some(leases[request.lease].lease) else None
      ensures request.lease in leases && !Bound(leases[request.lease].lease, request) ==>
                result.reason == Mismatch(leases[request.lease].lease, request)
    {
      hide Inv, CALLERS;
      UseKeepsInv(State(), request);
      if request.lease !in leases {
        return UseResult(UseNotFound, "credential lease was not found", None, None);
      }
      var record := leases[request.lease];
      var lease := record.lease;
      var mismatch := Mismatch(lease, request);
      if mismatch != "" {
        return UseResult(UseDenied, mismatch, Some(lease), None);
      }
      if lease.secretExposed {
        return UseResult(UseDenied, "credential lease is marked as agent-exposing and cannot be used", Some(lease), None);
      }
      if request.caller !in CALLERS {
        return UseResult(UseDenied, "credential lease can only be used by an authorized execution boundary", Some(lease), None);
      }
      if now >= record.expiresAt {
        return UseResult(UseExpired, "credential lease is expired", Some(lease), None);
      }
      if record.usesRemaining <= 0 {
        return UseResult(UseExhausted, "credential lease max_uses is exhausted", Some(lease), None);
      }
      record := record.(usesRemaining := record.usesRemaining - 1);
      leases := leases[request.lease := record];
      history := history + [Approval(request, now)];
      result := UseResult(UseApproved, "credential lease use approved for broker-controlled execution", Some(lease),
                          Some(record.usesRemaining));
    }

    /** The clock is monotone. */
    method Tick(seconds: nat)
      requires Inv(State())
      modifies this`now
      ensures Inv(State()) && State() == Apply(sha, old(State()), TickStep(seconds))
    {
      TickKeepsInv(State(), seconds);
      now := now + seconds;
    }
  }
}
