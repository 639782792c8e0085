# ScopeMemory: a Dafny model of the authorization gateway

ScopeMemory stands between agents and the tools they call. An agent's call is turned into facts, a policy engine
decides about the facts, an authorization check remembers the decision, a grant is consumed for every execution, and
everything is logged in a hash chain. This project models those parts and proves properties of each of them and of
the whole gateway, over every run.

The model is layered:

- `Text`, `Json`, `Canonical`, `PyText`, `Redaction`, `RedactionPaths`, `Framing`, `FramingCases`: the pure
  transformations. JSON trees with ordered fields, the canonical form under the hashes, `str` and `repr` of nested
  values, the two redactions, and the message framing of the Codex bridge.
- `PolicyRows`, `PolicyDatalog`, `PolicyPython`, `PolicyTable`: the policy three times. The Datalog text as relations
  over finite sets, the imperative evaluator as methods, and a truth table of nineteen rules that both are compared
  with. `PolicyDatalogTable`, `PolicyTheorems`, `DemoPolicy` hold the comparisons, `PolicyFlat` the whole policy as one
  literal chain of tests; `PolicyCompile` and `PolicyDecide` the way from a dictionary of facts to a sealed decision,
  `PolicyReads` and `PolicyFacts` which keys it reads and which rows it lists, `PolicyOrdered` the same on the ordered
  list of items, `PolicyNested` and `PolicyNestedHash` what key order below the top level can do to rows and hashes,
  `HashContents` what the hashes tell.
- `AuthorizationChecks`, `AuditLog`, `Ledger`, `LedgerInvariant`, `LedgerEvents`, `DoltStore`, `SplitConsume`,
  `CredentialBroker`: the state machines. Each is a set of functions on a value state with an invariant and a relation
  between earlier and later states, and a class whose methods are proved equal to the functions. `CheckLifecycle`,
  `LedgerCases`, `RequestTrail` and `LeaseLife` say what each call and each run does to a check, a row, a request and a
  lease in literal terms: states, columns, event names, times.
- `GrantLifecycle`, `GraphFallback`, `GraphLook`, `GatewayKeys`, `GatewayContext`, `GatewayNames`, `GatewayExecutes`,
  `GatewayJustification`, `GatewayExamples`: the cached graph, the rows that a question picks out of it, the facts and
  names it yields, exactly when they end in an executable answer, and what such an answer says about the tables.
- `Gateway`, `GatewayRecipes`, `GatewaySafety`, `GatewayLeases`, `GatewayTrail`, `GatewayTimes`, `GatewayApproval`,
  `GatewayScenario`, `GatewayReplay`, `GatewayHistory`, `GatewayAsks`, `GatewaySteps`, `GatewayService`, `DemoTables`: the
  composition. Calls of many agents interleave between authorization, consumption
  and execution; the clock advances between any two steps; a call may end early where the policy, the grant, the lease,
  the guard or the downstream tool stops it.

`dafny verify dfyconfig.toml` checks everything.

## What the proofs found

Most of the properties hold as stated. Ten do not, and are stated with a concrete input and their exact condition:

- `plain_data` is not idempotent on dataclasses: their fields keep declaration order on the first pass and are sorted on
  the second (`PlainDataNotIdempotent`, `PlainDataIdempotentIff`). The canonical JSON is not affected, because printing
  sorts anyway.
- Key order below the top level can reach the proof hash: a nested dictionary that is read as text is rendered in its own
  order (`NestedOrderCanReachHash`). Under a collision-free digest it does not exactly when every nested dictionary whose
  text enters a row, or shows a commit, keeps its order; the approval mode enters a row only where a recipe is known
  (`NestedReorderingIff`). The order of the top level never matters (`DecideIgnoresOrder`).
- The Datalog program and the Python evaluator disagree exactly when a recipe score below 0.82 is the only thing that
  Datalog objects to (`LowScoreDisagrees`, `DisagreeIffOnlyScoreObjects`).
- Adding a grant can turn an auto-approved call into a denied one, exactly when the context path is empty
  (`AddingGrantCanBlock`, `AddingGrantKeepsExecutableIff`). The gateway's snapshot flag rules that out.
- An executable answer does not imply an accepted recipe with a stored score of at least 0.82. Without a similarity row
  the graph makes up a score of 1.0, the fallback recipe may have any status, and the compiler writes "accepted" for it
  (`DraftRecipeRuns`). In the gateway the recipe is accepted and scored exactly when the search for the session returns a
  hit (`ExecutableRecipeIff`, `FreshDecisionRecipeIff`). The reference policy asks for accepted recipes, so it denies the
  other calls (`PromotionOnTablesIff`).
- An executable answer does not imply that the resource belongs to the session's team: a session whose team is the empty
  string is compiled as if it belonged to the owner (`TeamlessSessionRuns`, `TeamlessReadsAsOwner`,
  `ExecutableOwnershipIff`).
- With the external-write-predicted flag the policy lets run what the reference policy denies (`FlaggedWritesExceedDemo`,
  `PromotionAllowsIff`). The gateway never sends that flag, nor the break-glass flag (`NeverThroughTheGateway`).
- If the two statements of a consumption interleave, a grant with one use can be consumed twice in the log, because the
  event is appended whether or not the guarded update found a use (`RaceLogsTwoUsesOfOne`, `ConservedIffNoMiss`). With
  each store call atomic, as everywhere else in the model, conservation holds (`GrantsConserved`).
- A path of the redaction report can stand for two positions (`DottedKeysCollide`): exactly when one key of a dictionary
  extends another by a text that begins with a dot or a bracket, and that text completes the path of a cut below the
  longer key to that of a cut below the shorter (`ReportCollidesIff`). With keys that are nonempty and free of dots and
  brackets it never does (`ReportIdentifies`).
- A check can become executable at its expiry: one that is created with a time to live of zero or less is expired at once,
  but `evaluate` looks at the expiry only of a check that it finds, so a new one is still decided (`ApprovedAtExpiry`).
  An executable check was made so before its expiry exactly when its time to live is positive (`ApprovedInTimeIff`). The
  gateway always allows fifteen minutes, so there it never happens (`EveryApprovalIsOnTime`).

## Reading the model

Times are natural numbers of seconds from one monotone clock. Scores and trust are thousandths. Identifiers that the
code draws from `uuid4` are fresh natural numbers. A digest is an arbitrary function on canonical trees; where a result
needs it, the function is assumed to be free of collisions and never empty (`PerfectHash`). `Result` and `Option` stand
for exceptions and `None`. Where a contract of `GatewayService` is about a whole world, the method takes the world that it
starts from as a ghost parameter.

## Model

| member | source | states |
|---|---|---|
| PolicyTable.PrecedenceIsInjective | platform/cozo_policy.py:21-56 | no two of the nineteen rules share a precedence |
| PolicyTable.WinnerIsMaximal | platform/cozo_policy.py:350-361 | the winning rule fires and strictly outranks every other rule that fires |
| PolicyTable.ExecutableIffGrants | platform/cozo_policy.py:262-352 | a policy question ends in ALLOW or AUTO_APPROVE exactly when one closed condition on its signals holds; ALLOW exactly when a grant is also present |
| PolicyDatalogTable.HardDeniesOf | platform/cozo_policy.py:154-261 | on compiled rows the hard-deny stratum of the Datalog program holds one tuple for each hard deny whose condition is met, and nothing else |
| PolicyDatalogTable.CandidatesOf | platform/cozo_policy.py:262-348 | on compiled rows the candidates of the Datalog program, with stratified negation, are exactly the outcomes of the rules that fire |
| PolicyDatalogTable.CandidateQueryOf | platform/cozo_policy.py:363-370 | the candidates query returns exactly those outcomes |
| PolicyDatalogTable.EffectiveQueryOf | platform/cozo_policy.py:350-361 | the effective query returns the outcome of the winner and nothing else |
| PolicyDatalogTable.UniqueWinner | platform/cozo_policy.py:350-361 | every compiled fact set yields exactly one effective row |
| PolicyPython.CollectHardDenies | platform/cozo_policy.py:608-633 | the chain of tests appends exactly the hard denies that fire, in source order |
| PolicyPython.MaxByPrecedence | platform/cozo_policy.py:700-708 | the loop returns a candidate of the highest precedence |
| PolicyPython.EvaluateWithPython | platform/cozo_policy.py:564-708 | the evaluator collects the outcomes of exactly the firing rules, and selects the winner |
| PolicyTheorems.ReadSignalsOf | platform/cozo_policy.py:564-595 | what the evaluator reads from compiled rows are the signals of the inputs, with any recipe row counting |
| PolicyTheorems.RunBoth | platform/cozo_policy.py:540-708 | run on one fact set, a Datalog row that is not a DENY is the evaluator's result; with a score of at least 0.82 the results are equal; with a reified hit the candidate sets are too |
| PolicyTheorems.DatalogRefinesPython | platform/cozo_policy.py:88-352 | a Datalog result that is not DENY is what the Python evaluator returns, with decision, reason, rule and precedence |
| PolicyTheorems.AgreeOnGoodScores | platform/cozo_policy.py:112-120 | with a score of at least 0.82 the two evaluators agree on every result |
| PolicyTheorems.CandidatesCoincide | platform/cozo_policy.py:112-120 | with a score of at least 0.82 and a reified hit the two candidate sets coincide |
| PolicyTheorems.DisagreeIffOnlyScoreObjects | platform/cozo_policy.py:580-581 | the evaluators disagree exactly when the low score is the only objection: the exact condition, for every fact set |
| PolicyTheorems.ExecutesIffGrants | platform/cozo_policy.py:262-352 | the Datalog program lets a call run exactly when the closed condition holds |
| PolicyTheorems.RaisingTrustKeepsExecutable | platform/cozo_policy.py:129-138 | raising the trust score never blocks a call that could run |
| PolicyTheorems.AddingDelegationKeepsExecutable | platform/cozo_policy.py:154-348 | adding the delegation never blocks a call that could run |
| PolicyTheorems.RemovingViolationsKeepsExecutable | platform/cozo_policy.py:154-348 | removing violations never blocks a call that could run |
| PolicyTheorems.AddingGrantKeepsExecutableIff | platform/cozo_policy.py:290-340 | adding the exact grant keeps an executable call executable if and only if its context path is not empty |
| PolicyTheorems.AddingGrantWithSnapshotKeepsExecutable | platform/gateway_service.py:250-255 | with the context snapshot that the gateway always sets, adding the grant never blocks |
| PolicyTheorems.LowScoreDisagrees | platform/cozo_policy.py:580-581 | a concrete fact set on which the Python evaluator allows a call that the Datalog program does not let run |
| PolicyTheorems.AddingGrantCanBlock | platform/cozo_policy.py:290-327 | a concrete fact set without a context path that a grant turns from executable to denied |
| PolicyCompile.CollectViolations | platform/cozo_policy.py:774-798 | the two loops return the violation kinds of the facts: one for each raised flag, and one more exactly when some telling key holds a value |
| PolicyCompile.ReorderedIsSameDictionary | platform/cozo_policy.py:373-374 | facts with reordered keys are the same dictionary |
| PolicyDecide.CollectFactStrings | platform/cozo_policy.py:809-815 | the nested loops list one string for each row, relation by relation in name order |
| PolicyDecide.EvaluateWithCozoOf | platform/cozo_policy.py:540-561 | the error about the number of effective rows is unreachable: the evaluation returns the winner's outcome |
| PolicyDecide.DecideIsDatalog | platform/cozo_policy.py:461-512 | `decide` fails only if the facts cannot be read, returns the Datalog answer, and is executable exactly when the closed condition holds |
| PolicyOrdered.FirstTelling | platform/cozo_policy.py:786-797 | finds the item at which the loop over the facts breaks off: an item exactly when some item tells a secret |
| PolicyOrdered.ItemsAreDictionary | platform/cozo_policy.py:373-512 | compiled as Python holds it, an ordered list of items read by `get` and by the loop, a dictionary of distinct keys yields what its unordered reading yields |
| PolicyOrdered.DecideIgnoresOrder | platform/cozo_policy.py:373-512 | reordering the items of the facts changes neither the compiled record (contracts, rows, fact strings, commits, fact set hash) nor the decision nor its proof hash |
| PyText.TextTellsOrder | platform/cozo_policy.py:375-387 | among values that are equal up to key order, `str` tells the order of every nested dictionary: the texts are equal exactly when the values are identical |
| PolicyNested.RowsTellIff | platform/cozo_policy.py:404-460 | fact sets with the same flags, numbers and recipe have equal rows exactly when every text that enters a row is equal, the approval mode counting only where a recipe is known |
| PolicyNested.TextsSameIff | platform/cozo_policy.py:382-460 | for facts that are equal up to key order at any depth, the compiled texts are equal exactly when every nested dictionary that is read as one of them keeps its order |
| PolicyNestedHash.FactSetHashTells | platform/cozo_policy.py:445-460 | under a collision-free digest the fact set hashes of such facts are equal exactly when their rows are |
| PolicyNestedHash.NestedReorderingIff | platform/cozo_policy.py:373-512 | for facts that are equal up to key order at any depth, if one can be read so can the other; the rows are equal, and under a collision-free digest the fact set hash, exactly when every nested dictionary whose text enters a row keeps its order; the proof hash exactly when those that show the commits do too; the whole compiled record, contracts included, exactly when all that is carried along does |
| PolicyNestedHash.NestedOrderCanReachHash | platform/cozo_policy.py:382-386 | two concrete dictionaries that differ in the key order of a nested value only, whose decisions have different proof hashes |
| DemoPolicy.PromotionAllowsIff | demo/rebac.py:304-350 | of a call that the platform lets run, the reference policy says ALLOW exactly unless it is an external write |
| DemoPolicy.PromotionIsConservative | demo/rebac.py:304-350 | without the external-write-predicted flag, platform-executable implies that the reference policy says ALLOW |
| DemoPolicy.FlaggedWritesExceedDemo | demo/rebac.py:318-323 | with that flag the platform runs a call that the reference policy denies |
| DemoTables.PromotionOnTablesIff | demo/rebac.py:202-350 | on shared tables, the reference policy reading every grant of the store, where the team has at most one accepted recipe for the goal class, the reference policy allows an executable call of the gateway exactly when the recipe search returned a hit, the teams are equal and the delegation names the session's user and agent |
| Canonical.CanonicalIffSameValue | platform/policy_contracts.py:184-185 | two trees have one canonical form exactly when they are equal up to key order |
| Canonical.SortKeysIdempotent | platform/policy_contracts.py:188-200 | canonical forms are well formed and fixed |
| Canonical.NormalizeWellFormed | platform/policy_contracts.py:189-198 | `plain_data` keeps dictionaries free of duplicate keys |
| Canonical.PlainDataSorts | platform/policy_contracts.py:188-200 | applied to a tree without dataclasses, `plain_data` sorts the keys at every depth and changes nothing else |
| Canonical.PlainDataIffSameValue | platform/policy_contracts.py:188-200 | on such trees `plain_data` depends only on the value and determines it: the results are equal exactly when the arguments are equal up to key order |
| Canonical.PlainDataIdempotentIff | platform/policy_contracts.py:188-200 | applying `plain_data` twice gives what one application gives exactly when the dataclasses that it reaches list their fields in sorted order |
| Canonical.PlainDataNotIdempotent | platform/policy_contracts.py:193-194 | a concrete dataclass value on which applying `plain_data` twice differs from applying it once |
| Canonical.PlainDataIdempotent | platform/policy_contracts.py:195-200 | a second application never changes anything but key order, and without dataclasses it changes nothing |
| Canonical.StableHashIffSameValue | platform/policy_contracts.py:203-204 | with a collision-free digest, equal hashes mean equal values up to key order, and conversely |
| Redaction.ScrubSensitive | platform/dolt_store.py:45-61 | the recursive loop computes the tree with every sensitive position blanked |
| Redaction.RedactPayload | platform/runtime_execution.py:118-144 | computes the same tree as the store's redaction, and reports exactly the cut positions, in traversal order |
| Redaction.ScrubbedHasNoSecret | platform/runtime_execution.py:118-144 | no sensitive key keeps its value and no sensitive string survives |
| Redaction.ScrubbedChangesOnlySecrets | platform/runtime_execution.py:118-144 | redaction changes a tree exactly when a secret is visible in it |
| Redaction.ScrubbedIdempotent | platform/runtime_execution.py:118-144 | redacting twice is redacting once |
| Redaction.CutIsBlanked | platform/runtime_execution.py:125-128 | at every cut position the redacted tree holds the blank |
| Redaction.UncutIsKept | platform/runtime_execution.py:129-144 | away from the cuts, leaves, keys and list lengths are unchanged |
| Redaction.CutsAreExact | platform/runtime_execution.py:118-144 | the reported positions are exactly the cut positions, in strictly increasing traversal order |
| Redaction.RedactTextReportsIffSensitive | platform/mcp/safe_views.py:51-56 | a string is replaced exactly when it is sensitive |
| RedactionPaths.ReportCollidesIff | platform/runtime_execution.py:118-144 | two cut positions of a value are reported by one path exactly when, in some dictionary of it, one key extends another by a text that begins with a dot or a bracket, and that text completes the path of a cut below the longer key to that of a cut below the shorter; where the report starts from the empty path, empty keys at the top count as well |
| RedactionPaths.ReportIdentifies | platform/runtime_execution.py:118-144 | in particular, where keys are nonempty and free of dots and brackets, the reported path of a cut position belongs to no other cut position, whatever path the report starts from |
| RedactionPaths.DottedKeysCollide | platform/runtime_execution.py:123-135 | a concrete value with a dot in a key, two of whose cut positions are reported by the same path |
| Framing.ReadContentLength | platform/codex_mcp_bridge.py:103-111 | the header loop yields the last content length and stops after the blank line |
| Framing.ReadMessage | platform/codex_mcp_bridge.py:92-114 | the reader returns and consumes what its specification says, with every error and end-of-stream case |
| Framing.WriteMessage | platform/codex_mcp_bridge.py:117-121 | the writer emits one Content-Length frame |
| Framing.ParseIntReadsDecimal | platform/codex_mcp_bridge.py:111 | `int` reads back the decimal numeral of a length |
| Framing.LineReadsBack | platform/codex_mcp_bridge.py:100-101 | one message sent as a line is read back, and the rest of the stream is left |
| Framing.FrameReadsBack | platform/codex_mcp_bridge.py:103-121 | one message sent as a frame is read back, and the rest of the stream is left |
| Framing.FramingRoundTrip | platform/codex_mcp_bridge.py:92-121 | any sequence of messages, each sent as a frame (Language Server Protocol 3.17, Base Protocol, Header Part) or as a line, is read back in order, and then the end of the stream |
| GrantLifecycle.TwinsAgree | platform/grant_lifecycle.py:9-31 | on rows of the schema the Python predicate and the SQL predicate agree |
| GrantLifecycle.TwinsDifferIff | platform/grant_lifecycle.py:9-31 | with a null count they would differ on exactly the unexpired rows |
| GrantLifecycle.ActiveGrants | platform/dolt_store.py:1600-1611 | the query keeps exactly the active rows |
| GraphFallback.Best | platform/graph_fallback.py:27-36 | the stable sort by rank and descending score puts a best row first |
| GraphFallback.SearchRecipes | platform/graph_fallback.py:156-191 | the loop returns the ranked hits of the accepted recipes of the team, cut at the limit |
| GraphFallback.RankedHitsAreOrdered | platform/graph_fallback.py:190 | hits come best first |
| GatewayContext.GatewayReads | platform/gateway_service.py:236-262 | the compiler accepts every context the gateway builds, and this is what it reads from it |
| GatewayContext.SettingGrant | platform/cozo_policy.py:373-444 | the grant fact is read in one place: setting it changes one compiled input |
| GatewayJustification.GrantPresentIsActive | platform/graph_fallback.py:87-95 | the graph reports a grant exactly when a matching row is active in the sense of the SQL queries |
| GatewayKeys.KeyIsInnocent | platform/cozo_policy.py:774-798 | no key of the gateway's facts is a violation flag or reads as the name of a secret, whatever its value |
| GatewayExecutes.NoViolations | platform/cozo_policy.py:774-798 | the facts of a gateway question never make a violation |
| GatewayExecutes.GatewayExecutesIff | platform/gateway_service.py:221-262 | an answer of the gateway is executable exactly when one closed condition on the rows that it looked up holds: binding, snapshot, commits and key order cannot change it |
| GatewayExecutes.NeverThroughTheGateway | platform/cozo_policy.py:198-222 | no external write and no call under an admin scope is ever executable through the gateway, because the flags that would excuse them are never sent |
| GatewayJustification.ExecutableIsJustified | platform/graph_fallback.py:66-154 | an executable answer implies a delegation, a recipe of the catalog that predicts the tool and either has a stored reified hit of at least 0.82 or is the fallback without any stored row, a context path, and an active grant or an auto-approved scope, all in the tables |
| GatewayJustification.ExecutableScoreIff | platform/graph_fallback.py:98-125 | for an executable answer the tables hold a reified hit of at least 0.82 for the matched recipe exactly when they hold any similarity row for it; without a row the score is made up |
| GatewayExamples.DraftRecipeRuns | platform/graph_fallback.py:37-42 | concrete tables with a draft recipe, no similarity row, a delegation and a live grant, on which the answer is executable |
| GatewayExamples.TeamlessSessionRuns | platform/cozo_policy.py:382-383 | concrete tables on which a session without a team gets an executable answer about another team's resource |
| GatewayRecipes.EveryRunStoresHits | platform/gateway_service.py:213-220 | in every run of a gateway that starts without similarity rows, every stored row is a hit of its session's search, with its score and rank |
| GatewayRecipes.PicturesDifferInGrant | platform/gateway_service.py:213-221 | whatever happened in between, two preparations for one question look up the same rows and differ in the grant flag at most |
| GatewayRecipes.ExecutableRecipeIff | platform/graph_fallback.py:156-191 | for an executable answer of the prepared gateway, the matched recipe is an accepted one, has a stored reified score of at least 0.82, and is the best hit with its class and title named by the goal: each of these exactly when the search returns a hit |
| GatewayJustification.NoRecipeNeverExecutes | platform/graph_fallback.py:34-45 | without a matched recipe no answer is executable |
| GatewayJustification.ExecutableOwnershipIff | platform/cozo_policy.py:382-383 | for an executable answer the resource belongs to the session's team if and only if both or neither of them have a team recorded |
| GatewayJustification.TeamlessReadsAsOwner | platform/cozo_policy.py:382-383 | every session without a team is compiled exactly as if it belonged to the team that owns the resource: the failing family of the ownership property |
| AuthorizationChecks.AuthorizationCheckService.constructor | platform/authorization_checks.py:35-39 | starts empty and in order |
| AuthorizationChecks.AuthorizationCheckService.Create | platform/authorization_checks.py:41-69 | returns the indexed check, or files a new one; the new state is stated in full |
| AuthorizationChecks.AuthorizationCheckService.Evaluate | platform/authorization_checks.py:71-102 | settled checks are replayed, open ones are decided; it raises exactly when the policy does and leaves the check evaluating |
| AuthorizationChecks.AuthorizationCheckService.Get | platform/authorization_checks.py:104-106 | returns the record, expired if it ran out; an unknown id changes nothing |
| AuthorizationChecks.AuthorizationCheckService.Cancel | platform/authorization_checks.py:108-112 | cancels open and waiting checks, leaves terminal ones |
| AuthorizationChecks.AuthorizationCheckService.CanExecute | platform/authorization_checks.py:117-118 | answers true exactly when the stored decision is executable |
| AuthorizationChecks.ExecutableIffStored | platform/authorization_checks.py:147-156 | a state is executable exactly when the stored decision is, with the matching proof; then the runtime guard passes |
| AuthorizationChecks.EvaluateKeepsInv | platform/authorization_checks.py:71-102 | evaluation keeps the one-to-one correspondence of index and checks and the coherence of every record |
| AuthorizationChecks.RunEvolves | platform/authorization_checks.py:19-144 | over every run identities and expiry never change, terminal records are never altered, and waiting ends only in expiry or cancellation |
| AuthorizationChecks.EveryRunKeepsInv | platform/authorization_checks.py:35-144 | every run from the empty service keeps the invariant |
| AuthorizationChecks.SameKeySameCheck | platform/authorization_checks.py:50-53 | two calls with one session and key return one check, whatever happens between them |
| AuthorizationChecks.DecisionIsFinal | platform/authorization_checks.py:88-102 | once a decision is stored, no later call or context changes it or what the record says about it |
| AuthorizationChecks.FailureLeavesEvaluating | platform/authorization_checks.py:91-93 | when the policy raises, the check is left evaluating without a decision |
| AuthorizationChecks.ResumedAfterFailure | platform/authorization_checks.py:88-102 | a check left evaluating is decided by the next evaluation that gets an answer while it lives |
| AuditLog.QueriesFindHead | platform/dolt_store.py:127-148 | in a chained table the two queries return the hash and the successor order of the session's last event |
| AuditLog.AppendLinks | platform/dolt_store.py:151-188 | one append adds one linked row to its session and leaves every other session alone |
| AuditLog.EverySessionIsChained | platform/dolt_store.py:127-188 | under any interleaving every session has orders 1..n, correct links and hashes that recompute from the stored scrubbed bodies, and records exactly its own appends |
| AuditLog.EqualHeadsEqualHistories | platform/dolt_store.py:163-172 | with a collision-free digest, equal head hashes mean equal entire histories |
| LedgerEvents.LogIsChained | platform/dolt_store.py:151-188 | the table of everything the store logs is chained for every session |
| LedgerEvents.ConsumptionReadsBack | platform/dolt_store.py:916-927 | the stored consumption still names its grant and its decision after scrubbing and sorting |
| LedgerEvents.DecisionReadsBack | platform/gateway_service.py:323-336 | the stored decision or execution still names its decision |
| Ledger.NewestAmong | platform/dolt_store.py:889-905 | the search finds a newest consumable grant whenever one exists |
| Ledger.Select | platform/dolt_store.py:889-905 | whatever row the database prefers among the newest, the selected row is a newest consumable one |
| Ledger.PendingIndex | platform/dolt_store.py:953-968 | finds a pending request of the same session, scope, resource and tool exactly when there is one |
| Ledger.EarliestUnseen | platform/dolt_store.py:1168-1181 | finds an earliest request without a first tool call exactly when there is one |
| LedgerInvariant.ConsumeKeepsInv | platform/dolt_store.py:880-930 | a consumption takes one use from one newest active grant of the tool's scope and from no other; without one nothing changes |
| LedgerInvariant.CreateRequestKeepsInv | platform/dolt_store.py:951-1093 | creating a request keeps all ledger invariants and never loses a preflight origin, an early mark, a prediction or a first tool call |
| LedgerInvariant.ApproveKeepsInv | platform/dolt_store.py:1096-1143 | approving keeps all ledger invariants |
| LedgerInvariant.RunKeepsInv | platform/dolt_store.py:837-1203 | every run keeps the ledger invariants, and rows only evolve |
| LedgerInvariant.GrantsConserved | platform/dolt_store.py:905-928 | for every grant the initial count equals the remaining count plus its logged consumptions |
| LedgerInvariant.SessionUsesBounded | platform/dolt_store.py:880-930 | a session never logs more consumptions than its grants were issued with |
| LedgerInvariant.ApprovedIffLogged | platform/dolt_store.py:1104-1138 | a request is approved exactly when an approval of it is logged |
| LedgerInvariant.HumanIffApproved | platform/dolt_store.py:1116-1126 | human-issued grants are exactly those that an approval names |
| LedgerInvariant.ApprovalsAreOneToOne | platform/dolt_store.py:1112-1138 | distinct approvals are about distinct requests and name distinct grants, which match what the request asked |
| LedgerInvariant.ApprovingAgainIsIdle | platform/dolt_store.py:1104-1111 | approving again, by anyone, after any run, changes nothing |
| LedgerInvariant.OnePendingRequest | platform/dolt_store.py:953-968 | at most one request is pending for a session, scope, resource and tool |
| DoltStore.DoltStore.AppendEvent | platform/dolt_store.py:151-188 | the table gains exactly the row that the chain prescribes |
| DoltStore.DoltStore.IssueGrant | platform/dolt_store.py:837-877 | one grant and its event are inserted |
| DoltStore.DoltStore.ConsumeGrantForTool | platform/dolt_store.py:880-930 | the selected grant loses a use, the event is logged, and the consumed grant is returned |
| DoltStore.DoltStore.CreateAccessRequest | platform/dolt_store.py:933-1093 | the pending request is refreshed or a new one inserted; its id is returned |
| DoltStore.DoltStore.ApproveAccessRequest | platform/dolt_store.py:1096-1158 | unknown requests raise, approved ones are left, pending ones get one grant and one event |
| DoltStore.DoltStore.MarkSeen | platform/dolt_store.py:1161-1203 | the earliest unseen request gets its first tool call, and its id is returned |
| DoltStore.DoltStore.FindActiveGrantForTool | platform/dolt_store.py:1282-1302 | finds a consumable grant exactly when there is one |
| SplitConsume.EveryInterleavingIsAccounted | platform/dolt_store.py:889-914 | with SELECT and UPDATE split and interleaved, and grants issued and approved in between, no count goes below zero, and the uses exceed the issued count by exactly the missed updates |
| SplitConsume.ConservedIffNoMiss | platform/dolt_store.py:907-927 | conservation then holds for a grant if and only if none of its updates missed |
| SplitConsume.UpdateConservesIff | platform/dolt_store.py:907-914 | one update keeps conservation if and only if its guard finds a use left |
| SplitConsume.RaceLogsTwoUsesOfOne | platform/dolt_store.py:889-928 | a concrete interleaving that logs two uses of a one-use grant |
| CredentialBroker.ChooseProviderMode | platform/credential_broker.py:205-227 | returns a listed mode that serves the injection mode, whenever the provider is ready and lists one |
| CredentialBroker.EarliestIsChosen | platform/credential_broker.py:230-234 | no earlier available preference is passed over |
| CredentialBroker.EveryRunIsBounded | platform/credential_broker.py:92-202 | over every run remaining uses plus approvals equal the maximum, approvals match lease, caller and time, and an expired lease is frozen |
| CredentialBroker.LeaseIsBounded | platform/credential_broker.py:92-202 | the same for a fresh broker, with the provider mode among those that the readiness lists |
| CredentialBroker.NoUseAfterExpiry | platform/credential_broker.py:180-185 | after expiry no use is approved in any run |
| CredentialBroker.FreshLeaseIsUsable | platform/credential_runtime.py:63-139 | the gateway's own first use of a lease it just minted is approved |
| CredentialBroker.CredentialBroker.MintLease | platform/credential_broker.py:102-153 | mints exactly when the request is sound and a mode is available; otherwise denies or escalates and changes nothing |
| CredentialBroker.CredentialBroker.AuthorizeUse | platform/credential_broker.py:159-202 | answers as specified; only an approval changes anything, and only one count |
| GatewaySafety.AuthorizeIsQuiet | platform/gateway_service.py:200-383 | an authorization, wherever it raises, consumes and executes nothing, and an executable answer is recorded under a fresh decision id and passes the runtime guard |
| GatewaySafety.ConsumeForCallKeepsInv | platform/mcp/handlers.py:175-192 | a call consumes for its own decision, once |
| GatewaySafety.ExecuteForCallKeepsInv | platform/mcp/handlers.py:193-219 | a call executes only after its own consumption, once |
| GatewaySafety.StepKeepsInv | platform/mcp/handlers.py:74-263 | every step of every agent keeps the safety invariant |
| GatewaySafety.EveryExecutionIsBacked | platform/mcp/handlers.py:172-219 | in every interleaved run each execution is preceded by its own consumption, preceded by its own executable decision, for the same session, tool and resource |
| GatewayReplay.ExecutableAnswerIsJustified | platform/gateway_service.py:200-383 | in a world whose checks are backed, an executable answer, decided now or replayed from an older check, is justified by the tables of the world in which the question is asked: the key of a check tells the grant flag, and nothing else in the question can have changed |
| GatewayReplay.OutcomeBacked | platform/authorization_checks.py:41-102 | the check that an evaluation returns, whenever it was created, is about the same session, tool, resource and grant flag as the question that hits it, and its executable decision has a reason under that flag |
| GatewayHistory.StepDecides | platform/gateway_service.py:200-383 | every step of every agent leaves the checks backed, and records executable decisions only for questions that the tables before the step justify |
| GatewayHistory.EveryDecisionWasJustified | platform/gateway_service.py:200-383 | in every interleaved run that starts without calls, with recipe ids as a primary key and with no similarity rows or with such as the search stores, under a collision-free digest, each executable decision on record was justified by the tables in the world before the very step that recorded it, replays included |
| GatewayHistory.EveryExecutionWasJustified | platform/gateway_service.py:200-383 | in every such run, the decision of whatever executes was justified by the tables in the world before the step that recorded that decision |
| GatewayRecipes.PreparedSearch | platform/graph_fallback.py:66-154 | whatever the run so far, what a prepared gateway looks up for a question is what the catalog alone shows, but for the grant flag |
| GatewaySafety.EveryRunIsAudited | platform/dolt_store.py:151-188 | in every run the stored events of every session form one chain that records exactly what was logged |
| GatewaySafety.ExecutionsAreBounded | platform/mcp/handlers.py:172-219 | in every run a session executes no more calls than it consumed uses, and consumes no more than its grants were issued with |
| GatewayApproval.GrantOutranksEscalation | platform/cozo_policy.py:290-340 | with the grant, the human-required-scope rule gives way to the grant rule |
| GatewayApproval.GrantedInputs | platform/cozo_policy.py:373-444 | asked again with the grant and another snapshot, the compiler reads the same inputs plus the grant |
| GatewayApproval.KeysDiffer | platform/gateway_service.py:523-533 | the question with the grant has another idempotency key |
| GatewayApproval.FreshDecision | platform/gateway_service.py:271-336 | a question under an unused key is decided by the winner of its own facts |
| GatewayApproval.GrantUnblocks | platform/gateway_service.py:200-383 | once a matching grant is live and the other facts are unchanged, the graph reports it, the key is another one, and unless an earlier check used that key the decision is ALLOW |
| GatewayApproval.FreshDecisionIff | platform/gateway_service.py:200-383 | a question under an unused key is answered executably exactly when the rows that it looks up satisfy the closed condition |
| GatewayApproval.FreshDecisionIsJustified | platform/gateway_service.py:200-383 | a fresh executable decision of the gateway is justified by the tables as they are |
| GatewayApproval.FreshDecisionRecipeIff | platform/gateway_service.py:213-221 | behind a fresh executable decision stands an accepted recipe with a stored score of at least 0.82 exactly when the search for the session returns a hit |
| GatewayApproval.CacheAgreesWithStore | platform/graph_fallback.py:15-17 | while no grant is written after a sync, the cached copy reports a grant exactly when the store's query would find one, at any later time |
| GatewayRecipes.SaveHitsIdempotent | platform/dolt_store.py:611-656 | saving the same hits again changes no row |
| GatewayRecipes.LookAgain | platform/graph_fallback.py:66-154 | graphs that match the same recipe and row give pictures that differ in the grant flag only |
| GatewayScenario.EscalationOpensRequest | platform/gateway_service.py:353-364 | a freshly escalated question leaves a pending request for the tool's scope |
| GatewayScenario.ApprovalGrants | platform/dolt_store.py:1096-1143 | through any run after an approval the human grant is active exactly while fewer than its five uses are logged and its hour is not over |
| GatewayScenario.LiveGrantUnblocks | platform/gateway_service.py:200-383 | once a question was escalated, in any later world with a live matching grant the same question has another key, and unless an earlier check used that key a call is allowed and consumes a grant |
| GatewayScenario.ApprovalUnblocks | platform/mcp/handlers.py:172-192 | escalation, any steps of any agents, approval, any steps again: while the hour lasts and fewer than five uses of the new grant are logged, a call with the same question is allowed and consumes a grant, unless an earlier check used the key with the grant |
| GatewayService.GatewayService.Authorize | platform/gateway_service.py:200-383 | the object's steps compute the authorization of the world |
| GatewayService.GatewayService.CreateAnticipatedRequests | platform/gateway_service.py:421-474 | the loop opens or refreshes one request for each prediction |
| GatewayService.GatewayService.Preflight | platform/gateway_service.py:91-197 | the object's steps compute the preflight of the world |
| GatewayService.GatewayService.Execute | platform/runtime_execution.py:67-115 | raises exactly without an executable check or a payload; the result shows no secret, and the audit events are those of an execution |
| GatewayService.GatewayService.HandleToolCall | platform/mcp/handlers.py:142-263 | the object's steps compute the tool call of the world; its caller is shown the redacted payload exactly when the call was executed, and otherwise nothing |
| GatewayService.HandlingIsARun | platform/mcp/handlers.py:142-263 | a tool call handled alone is one of the interleaved runs |
| PolicyCompile.CollectSecretKey | platform/cozo_policy.py:786-797 | the loop appends one row exactly when some telling key holds a value |
| PolicyPython.AddHardDenies | platform/cozo_policy.py:634-635 | the loop turns every hard deny into its candidate |
| PolicyPython.AddRepairAndEscalation | platform/cozo_policy.py:637-653 | appends the repair and the trust escalation exactly when they fire |
| PolicyPython.AddGrantPath | platform/cozo_policy.py:654-662 | appends the grant candidate exactly when it fires |
| PolicyPython.AddRecipePaths | platform/cozo_policy.py:663-694 | appends the auto-approval and the human escalation exactly when they fire |
| AuthorizationChecks.AuthorizationCheckService.ExpireIfNeeded | platform/authorization_checks.py:120-125 | the record as it reads at the time of the call |
| AuthorizationChecks.AuthorizationCheckService.Transition | platform/authorization_checks.py:127-144 | one rewritten record; an absent decision or proof keeps the old one |
| AuthorizationChecks.CreateKeepsInv | platform/authorization_checks.py:41-69 | creation keeps the invariant and indexes the check it returns |
| AuthorizationChecks.CancelKeepsInv | platform/authorization_checks.py:108-112 | cancellation keeps the invariant |
| LedgerInvariant.IssueKeepsInv | platform/dolt_store.py:837-877 | issuing keeps all ledger invariants |
| LedgerInvariant.SeenKeepsInv | platform/dolt_store.py:1161-1203 | marking a request seen keeps all ledger invariants and sets its first tool call once |
| LedgerInvariant.SeededInv | platform/dolt_store.py:411-425 | a store with seeded grants satisfies the invariants |
| DoltStore.DoltStore.AddGrant | platform/dolt_store.py:191-237 | one grant is inserted with its full count and expiry |
| DoltStore.DoltStore.FetchGrants | platform/dolt_store.py:1602-1613 | the active grants, as the sync fetches them |
| CredentialBroker.Mismatch | platform/credential_broker.py:243-259 | the reason is empty exactly when all four bindings agree |
| CredentialBroker.MintKeepsInv | platform/credential_broker.py:102-153 | minting keeps the bound and never touches another lease |
| CredentialBroker.UseKeepsInv | platform/credential_broker.py:159-202 | using keeps the bound |
| GatewaySafety.BeginKeepsInv | platform/mcp/handlers.py:151-173 | announcing and authorizing a call keeps the safety invariant |
| GatewaySafety.PreflightKeepsInv | platform/gateway_service.py:91-197 | a preflight keeps the safety invariant |
| GatewaySafety.ApproveKeepsWorldInv | platform/dolt_store.py:1096-1158 | an approval keeps the safety invariant |
| GatewaySafety.EveryRunKeepsInv | platform/mcp/handlers.py:74-263 | every interleaved run keeps the safety invariant, and the world only grows: the log is extended, rows and checks evolve, decisions stay |
| GatewayScenario.AllowedCallConsumes | platform/mcp/handlers.py:175-192 | an allowed call with a live grant of its scope consumes one |
| GatewayService.GatewayService.SyncGraph | platform/graph_fallback.py:15-17 | the cached copy becomes the tables with their active grants |
| GatewayService.GatewayService.SaveRecipeHits | platform/dolt_store.py:611-656 | the loop upserts the hits with their ranks |
| GatewayService.GatewayService.Judge | platform/gateway_service.py:221-383 | snapshot, check, decision record and follow-up, as specified |
| GatewayService.GatewayService.Lease | platform/credential_runtime.py:27-199 | logs the trail of the lease and tells whether it was used |
| GatewayService.GatewayService.ConsumeGrant | platform/mcp/handlers.py:175-192 | the call consumes a grant or is over |
| GatewayService.GatewayService.FinishCall | platform/mcp/handlers.py:193-221 | lease, guard and execution; either way the call is over; it returns the redacted payload, without a secret, exactly when the call was executed |
| GatewayService.GatewayService.ApproveAccessRequest | platform/dolt_store.py:1096-1158 | the approval, which raises exactly for an unknown request, followed by a sync exactly when it changed something |
| PolicyFlat.DatalogIsFlat | platform/cozo_policy.py:88-361 | the answer of the rule text is the row, with its decision, precedence and words, of the first of nineteen literal tests that succeeds |
| PolicyFlat.ExecutesExactlyWhen | platform/cozo_policy.py:154-361 | exactly when the rule text lets a call run, in terms of the compiled values alone |
| PolicyFlat.PythonIsFlat | platform/cozo_policy.py:564-708 | the Python evaluator gives the answer that the rule text would give if every recipe hit had a perfect score |
| PolicyReads.DecideRunsExactlyWhen | platform/cozo_policy.py:373-512 | exactly which dictionaries of facts `decide` lets run: the keys that are read, and what their absence means |
| PolicyReads.DecideRaisesIff | platform/cozo_policy.py:395-401 | `decide` raises exactly when the similarity score, or the confidence of a judge that spoke, is no number |
| PolicyReads.ViolationsExactly | platform/cozo_policy.py:774-798 | which keys tell of which violation: the raised flags, and any nonempty value whose key reads like a secret, six keys apart |
| PolicyReads.AnswerNames | platform/cozo_policy.py:404-432 | the sealed answer names the session, call and asker of its context, or what stands in for them |
| PolicyReads.CarriedRead | platform/cozo_policy.py:404-458 | the hashes, keys and commits that are carried along, and their defaults |
| PolicyReads.BindingRead | platform/cozo_policy.py:748-762 | the binding row, and what stands in for whatever the facts leave open |
| PolicyFacts.FactsAreRows | platform/cozo_policy.py:809-815 | a compiled record lists a text exactly when it is a row of one of its tables |
| PolicyFacts.SchemaFact | platform/cozo_policy.py:809-821 | a row reads as its table's name with its cells between brackets, comma-separated, truth values in lower case |
| PolicyFacts.GrantTables | platform/cozo_policy.py:432-437 | the tables that name the delegation, the grant and the path have their row exactly when it is so |
| PolicyFacts.FlagTables | platform/cozo_policy.py:728-738 | the flag rows and the trust row, with both comparisons |
| PolicyFacts.JudgesListed | platform/cozo_policy.py:765-771 | one row for each judge that spoke, with its truth and its confidence |
| PolicyFacts.CandidatesListed | platform/cozo_policy.py:824-828 | the proof lists exactly the candidates of the query, each with its decision, reason, rule and precedence |
| HashContents.KeysEqualIff | platform/gateway_service.py:523-533 | under a collision-free digest two idempotency keys are equal exactly when session, tool, resource, scope, grant fact, context path and index commit are |
| HashContents.EqualProofsEqualDecisions | platform/cozo_policy.py:482-499 | equal proof hashes seal one decision on one question, by one rule, from the same facts, path, commits and fact set |
| HashContents.PremisesTellRule | platform/cozo_policy.py:831-870 | lists of premises of different rules differ |
| DemoPolicy.DemoAllowsExactly | demo/rebac.py:304-350 | exactly when the reference policy allows a call |
| DemoPolicy.DemoAsksExactly | demo/rebac.py:304-350 | exactly when it asks a human; otherwise it denies |
| DemoTables.DemoLooksUp | demo/rebac.py:202-303 | the rows behind the facts that the reference policy looks up; any grant row counts, live or not |
| Text.StringLeqIff | platform/policy_contracts.py:184-185 | the order of keys: a beginning comes first, otherwise the first letters that differ decide |
| Redaction.ScrubbedBlanks | platform/dolt_store.py:45-61 | redaction relates a tree to exactly one tree: blank under the keys whose lower-case form holds one of eight literal markers, blank for the two secret texts, unchanged elsewhere |
| Redaction.CaseDoesNotMatter | platform/runtime_execution.py:123-128 | two keys with the same lower-case form are redacted alike |
| RedactionPaths.PathOfSecret | platform/runtime_execution.py:118-144 | a reported path is spelled with dots before keys and brackets around places |
| FramingCases.ObjectLineRead | platform/codex_mcp_bridge.py:92-103 | a line whose first visible byte is a brace is read as a message of its own |
| FramingCases.HeaderBlockRead | platform/codex_mcp_bridge.py:92-114 | a header block is read up to its blank line, the last Content-Length of any case counting, and then that many bytes |
| FramingCases.BrokenOff | platform/codex_mcp_bridge.py:92-114 | a header block without a blank line is the end of the stream |
| CheckLifecycle.GetExpiresIff | platform/authorization_checks.py:104-125 | `get` changes a check exactly when it is open or waiting and its expiry has come; then it is expired, with the same decision |
| CheckLifecycle.CreateFilesOrReads | platform/authorization_checks.py:41-69 | `create` files a new check under its key, or reads the one that is filed, expiring it if its time is over |
| CheckLifecycle.EvaluateKnown | platform/authorization_checks.py:71-102 | `evaluate` of a known question: expired if its time is over, untouched if settled, and otherwise decided as the policy answers |
| CheckLifecycle.EvaluateNew | platform/authorization_checks.py:71-102 | `evaluate` of a new question files it and decides it as the policy answers |
| CheckLifecycle.CancelEnds | platform/authorization_checks.py:108-112 | `cancel` ends a check that is open or waiting in time as cancelled, and no other |
| CheckLifecycle.ApprovedInTimeIff | platform/authorization_checks.py:41-125 | over every run, an executable check was made so before its expiry exactly if its time to live was positive |
| CheckLifecycle.ApprovedAtExpiry | platform/authorization_checks.py:41-102 | a concrete run in which a check with no time to live is approved at its expiry |
| LedgerCases.ActiveExactlyWhen | platform/grant_lifecycle.py:8-30 | a grant can be used before its expiry while a use is left |
| LedgerCases.IssuedGrant | platform/dolt_store.py:837-877 | auto-approval leaves one grant for one use within fifteen minutes, and one event |
| LedgerCases.ConsumptionTakesNewest | platform/dolt_store.py:880-930 | a consumption takes one use from a newest usable grant; without one nothing changes |
| LedgerCases.RequestOpensOrRefreshes | platform/dolt_store.py:953-1091 | asking refreshes the request that is pending for the same access, column by column, or opens one |
| LedgerCases.ApprovedRequestGetsGrant | platform/dolt_store.py:1096-1158 | approving a pending request marks it and leaves one grant for five uses within the hour; approving it again does nothing |
| LedgerCases.ToolCallMarksEarliest | platform/dolt_store.py:1161-1203 | the first tool call is marked now, for the request that has waited longest |
| LedgerEvents.GrantBodies | platform/dolt_store.py:837-930 | the entries that the stored bodies of issued and consumed grants show |
| LedgerEvents.RequestBodies | platform/dolt_store.py:1040-1066 | the entries that the stored bodies of requests and approvals show |
| LedgerEvents.CallBodies | platform/gateway_service.py:323-336 | the entries that the stored bodies of decisions and executions show |
| RequestTrail.EveryStoredRequestWasOpened | platform/dolt_store.py:953-1203 | in the stored table, by literal event names, every approval and every observed call of a request comes after its opening |
| LeaseLife.MintedExactlyWhen | platform/credential_broker.py:102-135 | a lease is minted exactly for a sound request that a ready provider can serve |
| LeaseLife.BestModeIsChosen | platform/credential_broker.py:205-227 | no listed mode that could serve as well stands higher in the literal preference than the chosen one |
| LeaseLife.LeaseIsOfRequest | platform/credential_broker.py:125-153 | the minted lease names the call, the binding, the best mode, the expiry and the uses of its request |
| LeaseLife.UseAnswers | platform/credential_broker.py:159-202 | what a use is answered: unknown, denied, expired, exhausted, approved, in this order |
| LeaseLife.LeaseLives | platform/credential_broker.py:102-202 | over every run a lease answers EXPIRED exactly from its expiry on, before that EXHAUSTED exactly once all uses were approved, else APPROVED |
| LeaseLife.RefHashTells | platform/credential_broker.py:125-135 | the hash shown in place of a reference tells reference, provider and class apart |
| GraphLook.LookFinds | platform/graph_fallback.py:66-154 | a question is answered with rows exactly when session, resource and tool are known; and which rows they are |
| GraphLook.FirstBestIsMatched | platform/graph_fallback.py:19-64 | among the best reified rows of the session the one stored first names the recipe, or else the fallback does |
| GraphLook.HitsExactly | platform/graph_fallback.py:156-190 | the search hits exactly the accepted recipes of the team that match the goal, each with its score |
| GraphLook.ClassOutranksNames | platform/graph_fallback.py:163-171 | a recipe of the goal's class outranks every recipe of another class |
| GraphLook.TiesInTableOrder | platform/graph_fallback.py:190-191 | hits with the same score come in the order of the table |
| GraphLook.StoredWithRank | platform/dolt_store.py:611-656 | after the search the hit at each place is stored with its score, its rank and as reified |
| GatewayNames.PathIsFull | platform/graph_fallback.py:127-141 | with nothing missing, the context path lists session, recipe, tool, scope, resource, owner, user and agent |
| GatewayNames.QuestionIsNamed | platform/gateway_service.py:221-290 | the sealed record of a gateway question names the rows that the question picked out |
| GatewayNames.QuestionNamesCredential | platform/gateway_service.py:236-249 | a bound credential reaches the policy's rows unchanged, active and unexposed |
| GatewayExecutes.AutoApprovedExactlyWhen | platform/cozo_policy.py:31-37 | without a grant, a gateway question is executable exactly if it is delegated, trusted, predicted and of the right team, its mode is auto_approve, its resource internal and of low or normal sensitivity, and its tool is not slack.post_message |
| GatewayAsks.AnswerIsTold | platform/gateway_service.py:276-336 | every answer is on record right after its question, on the same snapshot, with the check, the proof and the state word that its decision calls for |
| GatewayAsks.EscalationAsksHuman | platform/gateway_service.py:353-365 | an escalated decision leaves a pending request with its reason, proof, recipe and agent |
| GatewayAsks.EveryPredictionIsRequested | platform/gateway_service.py:386-474 | after a preflight, every predicted scope is on record, and a request for it is pending |
| GatewayAsks.PreflightStores | platform/gateway_service.py:110-111 | a preflight stores every hit with its score and its rank |
| GatewayAsks.SnapshotNamesCommit | platform/gateway_service.py:44-53 | a question is asked on the main commit exactly when the search finds a recipe |
| GatewaySteps.StrangersChangeNothing | platform/gateway_service.py:208-213 | whoever is not the session's active agent gets no answer and changes nothing |
| GatewaySteps.UnknownIsNotDecided | platform/gateway_service.py:219-221 | an unknown tool or resource gets no answer and leaves store and checks alone |
| GatewaySteps.CallIsAnnounced | platform/mcp/handlers.py:151-172 | every call is announced by two literal events, and marks the request that has waited longest for it |
| GatewaySteps.CallBegins | platform/mcp/handlers.py:173-263 | a call is admitted exactly if its answer is executable, and otherwise refused with the error for its decision |
| GatewaySteps.ConsumesExactlyWhen | platform/mcp/handlers.py:175-192 | a call under way takes a use of a newest usable grant and holds it, or is over if there is none |
| GatewaySteps.TrailTells | platform/credential_runtime.py:27-199 | the literal trail of a lease: selected, then blocked, or minted and injected, or minted and not resolved |
| GatewaySteps.ExecutionIsLogged | platform/runtime_execution.py:86-110 | an execution is logged with its decision, check and proof, and a redaction event follows exactly when something was hidden |
| GatewaySteps.UntrustedIff | platform/runtime_execution.py:86-104 | the flag that reports removed instructions |
| GatewayLeases.EveryExecutionWasPrepared | platform/mcp/handlers.py:173-221 | in every run each execution is preceded by its decision with the same check and proof, the consumption of a covering grant, and, if a credential is bound under the scope of that grant, its injection for this decision |
| GatewayLeases.ExecutesExactlyWhen | platform/mcp/handlers.py:193-221 | in every reachable world a call under way is executed by the next step exactly when it holds a grant, there is a payload, and the credential, if one is bound, can be leased; either way it is over and only the log has changed |
| GatewayTrail.EveryStoredExecutionIsBacked | platform/dolt_store.py:127-188 | in the stored table, by literal event names and stored decision ids: each executed call comes after the consumption of a grant and that after an executable decision, and each happens once |
| GatewayTrail.EveryStoredExecutionWasInjected | platform/dolt_store.py:127-188 | in the stored table, each execution of a credential-bound call comes after the injection for its decision |
| GatewayHistory.EveryRunKeepsNames | platform/gateway_service.py:323-336 | no other event that the gateway writes uses the names of the store's own events |
| GatewayTimes.EveryApprovalIsOnTime | platform/gateway_service.py:290 | in every run of the gateway, an executable check became so less than fifteen minutes after it was created |
| GatewayTimes.ClocksRunTogether | platform/authorization_checks.py:35-40 | only waiting takes time, and the store and the checks agree on how much |
| GatewayScenario.AutoApprovalGoesThrough | platform/gateway_service.py:339-350 | a freshly auto-approved call leaves a grant of its own, and consumes one when it is run |
| GatewayService.GatewayService.BeginCall | platform/mcp/handlers.py:151-263 | the object's steps compute the beginning of a call: announced, authorized, then admitted or denied |

## Left out

- JSON text and SHA-256: printing and parsing JSON is a pair of inverse functions given to the framing results, and a digest is a function on trees.
- Text beyond ASCII: `lower`, `strip` and `int` follow ASCII letters, blanks and digits only.
- Numbers as text: a numeric string in the policy facts counts as unreadable where the code would convert it, and fractions and exponents are not rendered.
- `repr` of text: every character outside ASCII counts as printable.
- GatewayService.GatewayService.Lease: readiness and the resolution of the secret are parameters, and the broker object stands behind its mint condition; that the first use of a lease that it mints is approved is `FreshLeaseIsUsable`.
- The path hash in the `context_path` row is the joined text under the hash. The proof trace is represented by its hash, and its list of facts and its snapshot id are those of the compiled record.
- Cozo itself: the Datalog text is read as its stratified least model; an engine that cannot start is a parameter of a question.
- Memgraph: only the in-memory backend is modelled, so `sync_graph` always reloads the cached tables.
- SQL: each store call is one step, except in `SplitConsume`; the choice among rows created in the same second is a parameter; request ids compare as numbers.
- `run_authorize` is one step of the interleaving, so two authorizations do not overlap inside each other.
- One clock reading serves a whole call; the code reads the clock several times.
- Rows of snapshots, decisions, the context graph and credential leases: they take fresh ids, but their contents are not read by anything modelled. The `status` column of sessions is left out for the same reason.
- Users, teams, JWTs and the identity plane: whether an agent is active is a parameter of a question, and a call whose token is refused is no step.
- Which human-required scopes a preflight predicts is a parameter; what is done with each prediction is modelled.
- Event bodies of tool intents and lease details are shortened to the fields that identify the call.
- 1Password: readiness and whether a secret resolves are parameters of a call; the downstream tools return a given payload or raise.
- Broker records are values in a map; that callers could alias a record object is not captured.
- Argument validation, tool catalogue, visibility lists, hook detection, the REST and web layers, and the demo applications.
- Liveness: nothing says that a call ends or that a human ever approves.
