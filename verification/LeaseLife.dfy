/** The life of one credential lease (platform/credential_broker.py): who gets one, who may use it, and how long. */
module LeaseLife {
  import opened Wrappers
  import opened Json
  import opened Canonical
  import opened CredentialBroker

  // ---- Who gets a lease ----

  /** The provider mode can deliver a secret in this way. */
  predicate Serves(mode: string, injection: string) {
    match mode
    case "onepassword_mcp_environment" =>
      injection in {"onepassword_mcp_environment", "process_env", "stdin_or_fd", "local_socket", "provider_native"}
    case "op_run_process_env" => injection in {"process_env", "stdin_or_fd", "local_socket", "provider_native"}
    case "op_cli_secret_reference" => injection in {"gateway_header", "stdin_or_fd", "local_socket", "provider_native"}
    case "onepassword_sdk_service_account" => injection in {"gateway_header", "stdin_or_fd", "local_socket", "provider_native"}
    case "onepassword_sdk_desktop" => injection == "gateway_header"
    case _ => false
  }

  lemma ServesIff(mode: string, injection: string)
    ensures Serves(mode, injection) <==> mode in Preferred(injection)
  {
  }

  /** The provider is ready and lists a mode that can deliver the secret. */
  ghost predicate Offers(readiness: Readiness, injection: string) {
    readiness.status == Ready && exists mode :: mode in readiness.providerModes && Serves(mode, injection)
  }

  /** A lease is minted exactly for a sound request that the provider can serve. */
  lemma MintedExactlyWhen(readiness: Readiness, r: MintRequest)
    ensures Mintable(readiness, r) <==> !r.wouldExpose && r.ttl > 0 && r.maxUses > 0 && Offers(readiness, r.binding.injectionMode)
  {
    hide Serves, Preferred;
    forall mode ensures Serves(mode, r.binding.injectionMode) <==> mode in Preferred(r.binding.injectionMode) {
      ServesIff(mode, r.binding.injectionMode);
    }
  }

  /** How far down the list of preferences a mode stands. */
  function Rank(mode: string, injection: string): nat {
    if injection == "gateway_header" then
      if mode == "op_cli_secret_reference" then 0 else if mode == "onepassword_sdk_service_account" then 1 else 2
    else if injection == "process_env" then if mode == "onepassword_mcp_environment" then 0 else 1
    else if injection == "onepassword_mcp_environment" then 0
    else if mode == "onepassword_sdk_service_account" then 0
    else if mode == "op_cli_secret_reference" then 1
    else if mode == "op_run_process_env" then 2
    else 3
  }

  lemma RankIsPosition(injection: string, n: nat)
    requires n < |Preferred(injection)|
    ensures Rank(Preferred(injection)[n], injection) == n
  {
  }

  /** No listed mode that could serve as well stands higher than the chosen one. */
  lemma BestModeIsChosen(readiness: Readiness, injection: string, mode: string, other: string)
    requires ChooseProviderMode(readiness, injection) == Some(mode)
    requires other in readiness.providerModes && Serves(other, injection)
    ensures mode in readiness.providerModes && Serves(mode, injection) && Rank(mode, injection) <= Rank(other, injection)
  {
    hide Serves, Preferred, Rank, FirstAvailable;
    ServesIff(mode, injection);
    ServesIff(other, injection);
    var available := set m <- readiness.providerModes :: m;
    var i :| 0 <= i < |Preferred(injection)| && Preferred(injection)[i] == other;
    EarliestIsChosen(available, Preferred(injection), i);
    var k :| 0 <= k <= i && Preferred(injection)[k] == FirstAvailable(available, Preferred(injection)).value;
    RankIsPosition(injection, k);
    RankIsPosition(injection, i);
  }

  /** The lease of a request: for its call and its binding, in the best mode that is offered, until its time is over. */
  lemma LeaseIsOfRequest(sha: Value -> string, b: Broker, r: MintRequest, other: string)
    requires Mintable(b.readiness, r)
    ensures b.nextId in Mint(sha, b, r).leases
    ensures var rec := Mint(sha, b, r).leases[b.nextId];
      && rec.expiresAt == rec.lease.expiresAt == b.now + r.ttl && rec.usesRemaining == rec.lease.maxUses == r.maxUses
      && rec.lease.session == r.session && rec.lease.tool == r.tool && rec.lease.scope == r.scope && rec.lease.resource == r.resource
      && rec.lease.credentialRef == r.binding.credentialRef && rec.lease.provider == r.binding.provider
      && rec.lease.injectionMode == r.binding.injectionMode && !rec.lease.secretExposed
      && rec.lease.operation == b.nextId + 1 && Mint(sha, b, r).nextId == b.nextId + 2
      && (other in b.readiness.providerModes && Serves(other, r.binding.injectionMode) ==>
            Rank(rec.lease.providerMode, r.binding.injectionMode) <= Rank(other, r.binding.injectionMode))
  {
    hide Preferred, Serves, Rank, RefHash, ChooseProviderMode;
    if other in b.readiness.providerModes && Serves(other, r.binding.injectionMode) {
      BestModeIsChosen(b.readiness, r.binding.injectionMode, ChooseProviderMode(b.readiness, r.binding.injectionMode).value, other);
    }
  }

  /** The hash that a lease shows in place of the reference tells references, providers and classes apart. */
  lemma RefHashTells(sha: Value -> string, a: Binding, b: Binding)
    requires PerfectHash(sha)
    ensures RefHash(sha, a) == RefHash(sha, b)
       <==> a.credentialRef == b.credentialRef && a.provider == b.provider && a.credentialClass == b.credentialClass
  {
    var x := [Field("credential_ref_id", Str(a.credentialRef)), Field("provider", Str(a.provider)),
              Field("credential_class", Str(a.credentialClass))];
    var y := [Field("credential_ref_id", Str(b.credentialRef)), Field("provider", Str(b.provider)),
              Field("credential_class", Str(b.credentialClass))];
    assert DistinctKeys(x);
    SameKeysAgree(x, y);
    assert forall n :: 0 <= n < 3 ==> SortKeys(x[n].value) == x[n].value && SortKeys(y[n].value) == y[n].value;
    hide SortKeys;
    assert RefHash(sha, a) == StableHash(sha, Obj(x)) && RefHash(sha, b) == StableHash(sha, Obj(y));
    if RefHash(sha, a) == RefHash(sha, b) {
      assert x[0].value == y[0].value && x[1].value == y[1].value && x[2].value == y[2].value;
    }
  }

  // ---- Who may use it, and how long ----

  /** The request is about the call that the lease was minted for, and comes from an execution boundary. */
  predicate Fits(lease: Lease, u: UseRequest) {
    && u.session == lease.session && u.tool == lease.tool && u.scope == lease.scope && u.resource == lease.resource
    && !lease.secretExposed && u.caller in {"gateway", "broker", "exec_wrapper", "mcp_launcher"}
  }

  /** A stranger is told the first of the four bindings that differs. */
  lemma MismatchNames(lease: Lease, u: UseRequest)
    ensures Mismatch(lease, u) == "credential lease session_id binding mismatch" <==> u.session != lease.session
    ensures Mismatch(lease, u) == "credential lease tool_id binding mismatch" <==> u.session == lease.session && u.tool != lease.tool
    ensures Mismatch(lease, u) == "credential lease scope binding mismatch"
       <==> u.session == lease.session && u.tool == lease.tool && u.scope != lease.scope
    ensures Mismatch(lease, u) == "credential lease resource_id binding mismatch"
       <==> u.session == lease.session && u.tool == lease.tool && u.scope == lease.scope && u.resource != lease.resource
  {
    assert "credential lease session_id binding mismatch"[18] == 'e' && "credential lease tool_id binding mismatch"[18] == 'o';
    assert "credential lease scope binding mismatch"[18] == 'c' && "credential lease resource_id binding mismatch"[18] == 'e';
    assert "credential lease session_id binding mismatch"[17] == 's' && "credential lease resource_id binding mismatch"[17] == 'r';
  }

  /** What a use is answered: unknown leases, then strangers, then the clock, then the count. */
  lemma UseAnswers(b: Broker, u: UseRequest)
    ensures UseStateOf(b, u) == UseNotFound <==> u.lease !in b.leases
    ensures u.lease in b.leases ==>
      var rec := b.leases[u.lease];
      && (UseStateOf(b, u) == UseDenied <==> !Fits(rec.lease, u))
      && (UseStateOf(b, u) == UseExpired <==> Fits(rec.lease, u) && b.now >= rec.expiresAt)
      && (UseStateOf(b, u) == UseExhausted <==> Fits(rec.lease, u) && b.now < rec.expiresAt && rec.usesRemaining <= 0)
      && (UseStateOf(b, u) == UseApproved <==> Fits(rec.lease, u) && b.now < rec.expiresAt && rec.usesRemaining > 0)
  {
  }

  /**
   * A lease lives for its time to live and its number of uses. Whatever was minted, used and waited for since it was
   * minted: a fitting use is answered EXPIRED exactly from its expiry on, before that EXHAUSTED exactly once all its uses
   * were approved, and approved otherwise.
   */
  lemma LeaseLives(sha: Value -> string, b: Broker, r: MintRequest, steps: seq<Step>, u: UseRequest)
    requires Inv(b) && Mintable(b.readiness, r)
    requires u == UseRequest(b.nextId, r.session, r.tool, r.scope, r.resource, u.caller)
    requires u.caller in {"gateway", "broker", "exec_wrapper", "mcp_launcher"}
    ensures var t := Run(sha, Mint(sha, b, r), steps);
      UseStateOf(t, u) == if t.now >= b.now + r.ttl then UseExpired
                          else if Approved(t.history, b.nextId) >= r.maxUses then UseExhausted else UseApproved
  {
    hide Approved, Preferred, RefHash, ChooseProviderMode, Run;
    var minted := Mint(sha, b, r);
    MintKeepsInv(sha, b, r);
    EveryRunIsBounded(sha, minted, steps);
    var t := Run(sha, minted, steps);
    assert LeaseOk(t, b.nextId);
    assert RecordEvolves(minted.leases[b.nextId], t.leases[b.nextId]);
    UseAnswers(t, u);
  }
}
