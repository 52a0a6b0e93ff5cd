# UmojaFlowOS: models and proofs

This project models the parts of the UmojaFlowOS control plane, its infrastructure scripts and its
simulators whose correctness is hardest to see by reading, and proves what they keep over every input,
every interleaving and every run. `dafny verify dfyconfig.toml` checks all of it.

| file | component |
|---|---|
| `EntityResolution.dfy` | union-find record linkage of the entity-resolution service |
| `Retention.dfy` | index-deletion protocol: decision gateway, signed tokens, one-time claims, delete workers |
| `CircuitBreaker.dfy` | pool circuit breaker in front of the delete worker |
| `CertificatePath.dfy`, `Der.dfy` | certificate path building and DER reading of the sidecar verifier |
| `TableOrder.dfy` | foreign-key ordering of tables for seeding |
| `QueueScaling.dfy`, `Latency.dfy` | the queue/autoscaler simulation and its latency figures |
| `CredentialChaos.dfy` | the credential-expiry simulation |
| `MultiRail.dfy` | rail failover coordinator (Python and TypeScript) |
| `Amounts.dfy`, `Drafting.dfy`, `PaymentService.dfy`, `PaymentLifecycle.dfy` | rate locks, screening, order drafting, order and leg lifecycle |
| `Onboarding.dfy` | counterparty onboarding and recertification |
| `VaultCleanup.dfy` | deletion of old Vault secret versions |
| `Common.dfy`, `Sorting.dfy` | `Option` and `Result`; ascending order of integers |

## How the models are built

Objects that update fields in place are classes; loops are methods with invariants; each such method is
specified by functions on values, and the laws are proved about those functions. Components that run
concurrently are also state machines whose steps are the points at which other activity can interleave:
a row lock is held between the steps of its transaction, nothing uncommitted is visible, a unique key waits
for an uncommitted insert of the same key. Results about the machines hold for every legal sequence of
steps, whatever its length and whoever takes part.

Clocks, provider answers, HTTP and database outcomes, signature verification and digests are parameters
or environment steps. The MAC is ideal: a signature by the signer exists only over a body that was signed.

## What the proofs found

- The certificate path builder takes the first listed candidate of a name and never reconsiders. It can
  therefore miss a valid path (`GreedyMissesPath`); `BuildExact` says exactly which paths it returns.
- The DER reader accepts lengths that the distinguished encoding rules forbid (`NonMinimalAccepted`);
  `CanonicalExactly` says when what it read is canonical. A first length octet of 0xFF, reserved by section
  8.1.3.5 of ITU-T X.690, is accepted as a count of 127.
- Two tokens are signed for one index exactly when an authorized decision on it finishes between the start
  and the authorized finish of another (`TwoTokensExactly`, `FinishKeepsOne`). The failure reaches the index:
  such an overlap can end in two delete calls (`OverlapDeletesTwice`), and nothing else can
  (`TwoDeletesOverlap`).
- A probe that ends without a report, in a database claim error or an unhandled exception, leaves the breaker
  half-open for ever (`FailedProbeSticks`); every breaker has a run from its creation that ends there
  (`EveryBreakerCanStick`), and `CanCloseExactly` says when a half-open breaker can still close.
- The idempotent-replay branch of order drafting never returns an order: the consumed-lock check comes
  first, so by the time the branch is reached the earlier order is bound to another lock (`NeverReplays`).
- `cancelPostgresRateLock` in postgres.ts cancels a lock that is bound to an order; the function of the
  same name in paymentWorkflow.ts, whose documentation promises the opposite, does not (`CancelBound`).
  A run from empty tables ends with a cancelled lock under an order (`CancelledWhileBound`), and only that
  step cancels one (`OnlyStatusCancels`).
- A market-data integration read as active can be suspended before the observation is inserted, because the
  row lock of the read does not keep out the suspending update (`SuspendedBeforeInsert`). What holds is that
  the recording transaction itself had read it active (`ObservationsRecorded`); it still is at the insert
  exactly when its last change in between, if any, left it so (`ActiveAtInsertExactly`).
- An approved leg can stand under a cancelled order, although the documentation says a leg never outranks
  its order: the order is cancelled after the leg was approved, or after the leg transition read it
  (`ApprovedUnderCancelled`, two runs from empty tables). `CancelLeavesApproved` gives the exact condition:
  approved legs, and transitions under way that have read the order approved. Nothing worse happens: the order
  is approved or cancelled (`LegsBelowOrders`) and had been approved (`ApprovedAfterOrder`).
- Two rails can act on one key exactly when two rails hold it and neither has refused it safely
  (`BothActExactly`). One rail pair per key among the calls that reach a rail excludes that
  (`DisciplineSuffices`); without it, or with a rail that acts after a safe refusal, both act for every
  intent and every two rails (`SwappedRailsBothAct`, `BrokenContractBothAct`).
- The Vault cleanup looks up the last fetch of a version under its plain decimal text only, while the state
  file may record it under a text with leading zeros: such a version is selected though just fetched
  (`AliasMissed`). `SelectedUnfetchedExactly` says when a selected version really was not fetched. Two keys of
  the metadata that spell one version can put it in two groups, so that it is let go though one of its entries
  is young (`TwoSpellingsTwoGroups`); with one key for each version it is in exactly one (`OneGroupEach`).

## Model

| member | source | states |
|---|---|---|
| EntityResolution.Similarity | simulators/production_dependencies/app.py:274-281 | the score is agreeing over comparable fields, within 0 and 1, and 1 exactly when something is comparable and all of it agrees |
| EntityResolution.ScoreSymmetric | simulators/production_dependencies/app.py:274-281 | the score does not depend on the order of the two records |
| EntityResolution.AllMatchesExact | simulators/production_dependencies/app.py:299-305 | the reported pairs are exactly the pairs of earlier and later records that score at the threshold |
| EntityResolution.HalvingKeeps | simulators/production_dependencies/app.py:288-292 | pointing a node at its grandparent keeps the forest and every node's root |
| EntityResolution.LinkingMerges | simulators/production_dependencies/app.py:294-297 | hanging a root under another merges exactly their two classes and keeps the forest acyclic |
| EntityResolution.RepresentativeUnique | simulators/production_dependencies/app.py:286-292 | the parent dictionary alone determines each node's representative |
| EntityResolution.Forest.constructor | simulators/production_dependencies/app.py:286 | every id starts as its own root, equal ids being one node |
| EntityResolution.Forest.Find | simulators/production_dependencies/app.py:288-292 | terminates at the node's root and changes no node's root while it halves paths |
| EntityResolution.Forest.Union | simulators/production_dependencies/app.py:294-297 | the two classes become one under the left root; all others stay |
| EntityResolution.AgreesBothWays | simulators/production_dependencies/app.py:299-305 | two ids share a root exactly when a chain of matches connects them |
| EntityResolution.AgreesAfterUnion | simulators/production_dependencies/app.py:303-305 | one union keeps roots and match chains in agreement |
| EntityResolution.ChainKeepsRepresentative | simulators/production_dependencies/app.py:299-305 | no chain of matches leaves a class |
| EntityResolution.MatchAll | simulators/production_dependencies/app.py:299-305 | the double loop reports all scoring pairs in order and leaves roots equal exactly for connected ids |
| EntityResolution.Gather | simulators/production_dependencies/app.py:306-308 | files every record once under its root, roots in order of first sight |
| EntityResolution.Resolve | simulators/production_dependencies/app.py:284-309 | clusters hold every record id as often as it occurs, two ids share a cluster exactly when chained by matches, and clusters and members come in order of first sight |
| TableOrder.LastWins | scripts/infra/seed_nigeria_scenario.py:508 | of several tables with one key the last is filed |
| TableOrder.Collect | scripts/infra/seed_nigeria_scenario.py:509-518 | a table waits for exactly the other known tables its foreign keys name, the one nullable edge aside |
| TableOrder.Sort | scripts/infra/seed_nigeria_scenario.py:522 | the ascending listing of a set of keys, which is unique |
| TableOrder.SortingUnique | scripts/infra/seed_nigeria_scenario.py:522-526 | a set of keys has only one ascending listing |
| TableOrder.StuckReachesCycle | scripts/infra/seed_nigeria_scenario.py:522-526 | when no remaining table is ready, every remaining table reaches a dependency cycle |
| TableOrder.FallbackNeverTaken | scripts/infra/seed_nigeria_scenario.py:523-526 | on an acyclic graph the fallback branch is never taken |
| TableOrder.WellPlacedReachesNoCycle | scripts/infra/seed_nigeria_scenario.py:521-529 | a table placed after all its parents reaches no cycle |
| TableOrder.LayeredPlaced | scripts/infra/seed_nigeria_scenario.py:519-530 | layer by layer, every key is listed once and every table that reaches no cycle comes after all its parents |
| TableOrder.PlaceLayers | scripts/infra/seed_nigeria_scenario.py:519-530 | the while loop terminates with the layered order of the tables filed by key |
| TableOrder.OrderTables | scripts/infra/seed_nigeria_scenario.py:507-530 | the result lists every key once with its table, each table that reaches no cycle after its parents |
| Der.ReadExact | scripts/infra/verify_role_sidecar_authorization.py:106-127 | the reader returns a TLV exactly when some definite-length form of it stands at the offset |
| Der.RoundTrip | scripts/infra/verify_role_sidecar_authorization.py:106-127 | reading inverts encoding at any offset and before any rest, short and long lengths |
| Der.OctetsUnique | scripts/infra/verify_role_sidecar_authorization.py:116-121 | length octets without leading zeros are determined by the number |
| Der.OctetsShortest | scripts/infra/verify_role_sidecar_authorization.py:116-121 | no length form is shorter than the encoder's, and equality holds only without leading zeros |
| Der.CanonicalExactly | scripts/infra/verify_role_sidecar_authorization.py:106-127 | what was read is the distinguished encoding exactly when its length octets are minimal |
| Der.NonMinimalAccepted | scripts/infra/verify_role_sidecar_authorization.py:116-127 | a concrete non-minimal encoding that the reader takes |
| Der.SpkiExact | scripts/infra/verify_role_sidecar_authorization.py:130-145 | key bits are returned exactly for a well-formed SubjectPublicKeyInfo of those bits |
| CertificatePath.FirstNamedExact | scripts/infra/verify_role_sidecar_authorization.py:279-281 | the candidate found has the wanted name, and none is found only if none has it |
| CertificatePath.RemoveFirstExact | scripts/infra/verify_role_sidecar_authorization.py:285 | removal takes out exactly one occurrence |
| CertificatePath.ExtendedThrough | scripts/infra/verify_role_sidecar_authorization.py:290-297 | the path-length count equals the number of intermediates below, the same-subject exclusion never firing |
| CertificatePath.BuildSound | scripts/infra/verify_role_sidecar_authorization.py:250-298 | a returned path starts at the leaf, ends at the anchor, has at most nine entries, linked, signed, current and distinct certificates, CA intermediates within their path lengths, as section 6.1 of RFC 5280 asks |
| CertificatePath.BuildExact | scripts/infra/verify_role_sidecar_authorization.py:250-298 | a path is returned exactly when it is valid, no intermediate has the anchor's name and each intermediate is the first listed candidate of its name |
| CertificatePath.BuildAndValidate | scripts/infra/verify_role_sidecar_authorization.py:250-298 | the loop returns exactly those paths, and otherwise the error of the first failed check |
| CertificatePath.BuildComplete | scripts/infra/verify_role_sidecar_authorization.py:250-298 | if subject names determine the intermediates, every valid path is found, so at most one exists |
| CertificatePath.GreedyMissesPath | scripts/infra/verify_role_sidecar_authorization.py:279-283 | a valid path missed because an earlier candidate has the same name |
| QueueScaling.Arrive | scripts/infra/simulate_fabric_queue_hpa_scaling.py:53-56 | arrivals are appended with consecutive ids and the current second |
| QueueScaling.Serve | scripts/infra/simulate_fabric_queue_hpa_scaling.py:60-68 | the first min(queue, capacity) jobs complete in id order, each in time, and none is lost |
| QueueScaling.Scale | scripts/infra/simulate_fabric_queue_hpa_scaling.py:74-86 | replicas stay within 2 and 8, follow the event log and change exactly under the sampling, rise and fall conditions; a rise goes to the lesser of two more and the desired count |
| QueueScaling.ServedEnough | scripts/infra/simulate_fabric_queue_hpa_scaling.py:53-68 | completed stays at least min(arrived, 32 per elapsed second) |
| QueueScaling.DeadlineOpen | scripts/infra/simulate_fabric_queue_hpa_scaling.py:53-68 | a waiting job is still within its deadline |
| QueueScaling.ClaimedInTime | scripts/infra/simulate_fabric_queue_hpa_scaling.py:52-68 | job k is claimed no later than max(its arrival second, ceil(k/32) - 1) |
| QueueScaling.Second | scripts/infra/simulate_fabric_queue_hpa_scaling.py:52-86 | one second keeps all laws: the next ids for the arrivals, the first jobs up to capacity claimed now, the mark, and an event exactly when replicas rise or fall |
| QueueScaling.Simulate | scripts/infra/simulate_fabric_queue_hpa_scaling.py:41-86 | for every duration, rate and burst, the states of the run, from the start to the one returned, follow each other second by second; in each, arrivals equal completed plus queued, ids complete in order and in time, replicas stay in 2..8; the mark is the maximum, and the queue is empty once 32 a second suffice |
| QueueScaling.Figures | scripts/infra/simulate_fabric_queue_hpa_scaling.py:88-112 | each list of waiting, service and whole times is reported; no wait is negative, every service takes one second, and the mean of the whole is exactly one second above the mean wait |
| Latency.AtLaws | scripts/infra/simulate_fabric_queue_hpa_scaling.py:16-20 | interpolated values stay between the extremes, reach them at the first and last rank, and never fall as the rank rises |
| Latency.AtOwnRank | scripts/infra/simulate_fabric_queue_hpa_scaling.py:16-20 | at a whole rank the value is the one that stands there |
| Latency.Percentile | scripts/infra/simulate_fabric_queue_hpa_scaling.py:12-20 | none exactly for an empty list; otherwise the value at that fraction of the greatest rank in the ascending order, which is unique |
| Latency.MeanBetween | scripts/infra/simulate_fabric_queue_hpa_scaling.py:36 | a mean lies between the extremes |
| Latency.CountMonotone | scripts/infra/simulate_fabric_queue_hpa_scaling.py:24-28 | the cumulative counts rise with the bucket and never exceed the number of values |
| Latency.Report | scripts/infra/simulate_fabric_queue_hpa_scaling.py:23-38 | figures exactly for a list that is not empty: the extremes, the mean, three percentiles each at its fraction and in order between the extremes, and the histogram count by count |
| Sorting.AscendingUnique | scripts/infra/simulate_fabric_queue_hpa_scaling.py:15 | a multiset of values has one ascending order |
| Sorting.Sort | scripts/infra/simulate_fabric_queue_hpa_scaling.py:15 | ascending and with the same values as often |
| CredentialChaos.Active | scripts/infra/simulate_vault_s3_credential_chaos.py:38 | the open jobs in order, cut by the slice for any worker count |
| CredentialChaos.Tick | scripts/infra/simulate_vault_s3_credential_chaos.py:39-61 | what one tick does to every job and to the counters and events |
| CredentialChaos.DoneStep | scripts/infra/simulate_vault_s3_credential_chaos.py:27-61 | the closed form of completed jobs follows the ticks |
| CredentialChaos.ShapeStep | scripts/infra/simulate_vault_s3_credential_chaos.py:27-61 | complete, held and pending jobs form three consecutive ranges after every tick |
| CredentialChaos.FinishedTotals | scripts/infra/simulate_vault_s3_credential_chaos.py:62-80 | a finished list has no duplicate submission and the stated submissions and reads |
| CredentialChaos.Outcome | scripts/infra/simulate_vault_s3_credential_chaos.py:27-69 | the counters after the last tick in closed form |
| CredentialChaos.Conclude | scripts/infra/simulate_vault_s3_credential_chaos.py:62-87 | which check fails first, or the report |
| CredentialChaos.Run | scripts/infra/simulate_vault_s3_credential_chaos.py:18-87 | for all integers the run returns exactly when 4 workers < jobs <= 17 workers, with held, blocked, submissions, reads and events in closed form, and no job is submitted twice |
| MultiRail.Coordinator.Record | services/risk-compliance-core/multirail_failover.py:32-34 | the first outcome recorded for a key is kept and returned |
| MultiRail.Coordinator.Execute | services/risk-compliance-core/multirail_failover.py:19-31 | invalid intents are refused, a recorded key answers from the record, otherwise the outcome of the routing is recorded exactly when it is accepted |
| MultiRail.AloneIsExecute | apps/control-plane/server/multiRailFailover.ts:7-20 | the interleaved steps of a call, run alone, do what the coordinator's method does |
| MultiRail.ReturnsAgree | apps/control-plane/server/multiRailFailover.ts:7-20 | in every interleaving all normal returns for a key are the same recorded pair with an accepted status |
| MultiRail.AtMostOneRailActs | services/risk-compliance-core/multirail_failover.py:19-34 | if the calls on a key that reach a rail keep one rail pair and a safe refusal never acts, at most one rail ever acts on the key |
| MultiRail.BothActExactly | services/risk-compliance-core/multirail_failover.py:19-34 | from a reachable state that keeps the rail contract, late effects that keep it can make two rails act on a key exactly when two rails hold the key and neither has refused it safely |
| MultiRail.DisciplineSuffices | services/risk-compliance-core/multirail_failover.py:19-34 | with one rail pair per key no two rails ever hold a key unrefused |
| MultiRail.SwappedRailsBothAct | services/risk-compliance-core/multirail_failover.py:21-31 | without one pair per key both rails act, for every two valid intents on a key and every two rails |
| MultiRail.BrokenContractBothAct | services/risk-compliance-core/multirail_failover.py:27-31 | without the rail contract both rails act, for every valid intent, every two rails and every safe refusal |
| CircuitBreaker.Create | simulators/retention_gateway/worker_service.py:39-47 | a breaker comes about exactly for a threshold of at least one and a positive reset period, closed and without failures |
| CircuitBreaker.PoolBreaker.AllowRequest | simulators/retention_gateway/worker_service.py:53-61 | the admission decision and the move to half-open |
| CircuitBreaker.PoolBreaker.RecordPoolSaturation | simulators/retention_gateway/worker_service.py:63-70 | the failure count and when it trips |
| CircuitBreaker.PoolBreaker.RecordSuccess | simulators/retention_gateway/worker_service.py:72-76 | the reset to closed |
| CircuitBreaker.LawfulRun | simulators/retention_gateway/worker_service.py:196-225 | every interleaving of requests leaves a log that the breaker's fields mirror |
| CircuitBreaker.ClosedBelowThreshold | simulators/retention_gateway/worker_service.py:63-76 | a closed breaker has seen fewer saturations than the threshold since its last success |
| CircuitBreaker.OneProbePerTrip | simulators/retention_gateway/worker_service.py:53-76 | between a trip and the next success or trip nothing is admitted before the reset time and at most one probe is |
| CircuitBreaker.RefusedOnlyWhenTripped | simulators/retention_gateway/worker_service.py:53-61 | a refusal lies in an undisturbed open period, before its reset time or after its probe |
| CircuitBreaker.StuckForEver | simulators/retention_gateway/worker_service.py:53-76 | half-open with nobody left to report refuses every later request |
| CircuitBreaker.FailedProbeSticks | simulators/retention_gateway/worker_service.py:212-225 | a probe with any ending that reports nothing, a claim error or an exception, leads there |
| CircuitBreaker.EveryBreakerCanStick | simulators/retention_gateway/worker_service.py:39-76 | for each such ending every breaker has a run from its creation that ends there |
| CircuitBreaker.CanCloseExactly | simulators/retention_gateway/worker_service.py:53-76 | a half-open breaker can ever close exactly when some admitted request has yet to report |
| Retention.JudgeExact | simulators/retention_gateway/decision_engine.py:153-176 | evidence is accepted exactly with a clear hold, complete signed WORM evidence of the requested digest whose retention has ended, and an approval by someone other than the requester |
| Retention.DecisionEngine.Decide | simulators/retention_gateway/decision_engine.py:142-184 | the code of the first failed check; only an authorization is stored, and a stored key answers without a token |
| Retention.VerifyExact | simulators/retention_gateway/delete_worker.py:107-141 | a signed token verifies exactly for the request and digest it binds and only before it expires |
| Retention.ClaimOnce | simulators/retention_gateway/delete_worker.py:68-73 | a claim is won only unexpired and unconsumed, consumes its digest, frees none; a lost claim changes nothing (both stores) |
| Retention.RegisterKeeps | simulators/retention_gateway/delete_worker.py:249-263 | registration never revives a consumed digest |
| Retention.MemoryUseStore.TryClaim | simulators/retention_gateway/delete_worker.py:68-73 | the in-memory claim as the claim function |
| Retention.PostgresUseStore.RegisterDigest | simulators/retention_gateway/delete_worker.py:249-263 | only 64-character digests are registered and a known row is kept |
| Retention.PostgresUseStore.TryClaim | simulators/retention_gateway/delete_worker.py:265-298 | the conditional update as the claim function |
| Retention.DeleteWorker.Execute | simulators/retention_gateway/delete_worker.py:150-207 | over the in-memory store: the delete call is made exactly for a valid token, a digest never claimed and an unchanged identity; the claim stays spent; which reply each outcome gets |
| Retention.DurableDeleteWorker.Execute | simulators/retention_gateway/delete_worker.py:150-207 | over the database store, whose claim may time out or fail before or after taking effect: the delete call is made exactly for a valid token, a claim answered and won, and an unchanged identity; which reply each outcome gets |
| Retention.StepSound | simulators/retention_gateway/delete_worker.py:150-207 | every step of gateway and workers keeps the protocol invariant |
| Retention.RunSound | simulators/retention_gateway/delete_worker.py:150-207 | so does every interleaving |
| Retention.DeletesAuthorised | simulators/retention_gateway/delete_worker.py:107-207 | in every interleaving each delete call has its own winning unexpired claim, a matching identity read and a warranted grant for the same index, uuid, version and digest; no two calls share a decision digest |
| Retention.OneDeleteEach | simulators/retention_gateway/decision_engine.py:92-184 | while decisions on an index do not overlap, at most one token is signed and at most one delete call made for it over the whole run |
| Retention.FinishKeepsOne | simulators/retention_gateway/decision_engine.py:149-184 | in a reachable state with one grant per index, an authorized finish keeps it so exactly when no decision on its index was stored since it began |
| Retention.TwoTokensExactly | simulators/retention_gateway/decision_engine.py:142-184 | over every run, two tokens are signed for an index exactly when an authorized decision on it finished between the start and the authorized finish of another |
| Retention.TwoDeletesOverlap | simulators/retention_gateway/delete_worker.py:150-207 | two delete calls on an index need such an overlap |
| Retention.RunOverlaps | simulators/retention_gateway/delete_worker.py:150-207 | every legal run from the start that ends in two delete calls on an index passes through such an overlap |
| Retention.OverlapSignsTwice | simulators/retention_gateway/decision_engine.py:149-184 | two overlapping decisions on one index with good evidence are both signed |
| Retention.OverlapDeletesTwice | simulators/retention_gateway/delete_worker.py:150-207 | a run, over either store, in which such an overlap with different digests ends in two delete calls on one index |
| Amounts.AmountExact | apps/control-plane/server/paymentWorkflow.ts:252-254 | exactly the texts of the pattern, "0" aside, are amounts, each with the value it spells |
| Amounts.TargetNearest | apps/control-plane/server/paymentWorkflow.ts:298-300 | the target is within half of 10^-8 of source times rate, and is positive only for a positive source and rate |
| Drafting.StepConsistent | apps/control-plane/server/paymentWorkflow.ts:76-378 | every step of every overlapping transaction keeps bindings, keys, rates and amounts consistent |
| Drafting.NeverReplays | apps/control-plane/server/paymentWorkflow.ts:323-345 | in a consistent state the replay branch never answers with an earlier order |
| Drafting.Bindings | apps/control-plane/server/paymentWorkflow.ts:242-378 | in every state of every behaviour there is one order per key, each order is bound to exactly one lock, every binding names an existing order, and nothing was answered as a replay |
| Drafting.Forever | apps/control-plane/server/paymentWorkflow.ts:76-378 | over a whole behaviour no binding, rate, expiry, order or observation changes and no lock returns to locked |
| Drafting.AllOrNothing | apps/control-plane/server/paymentWorkflow.ts:242-378 | a draft's commit writes exactly its order and its binding, on a lock still locked and unexpired when checked; every other draft step leaves all tables as they were |
| Drafting.AmountsDerived | apps/control-plane/server/paymentWorkflow.ts:252-320 | every order has positive amounts, the nearest target, the lock's currencies, and the rate of an observation recorded by one transaction that had read its market-data integration active |
| Drafting.ObservationsRecorded | apps/control-plane/server/postgres.ts:611-614 | every observation was read, from an integration then active and of a market-data category, and inserted by one transaction open in between |
| Drafting.ActiveAtInsertExactly | apps/control-plane/server/postgres.ts:611-614 | the integration is still active at the insert exactly when its last change since the read, if any, left it so |
| Drafting.SuspendedBeforeInsert | apps/control-plane/server/postgres.ts:1278-1296 | a run from empty tables in which the integration is suspended between the read and the insert |
| Drafting.StepScreened | apps/control-plane/server/postgres.ts:163-264 | every step keeps stored screening states current and open drafts on clear beneficiaries |
| Drafting.NewestLatest | apps/control-plane/server/postgres.ts:198-209 | the newest check found is the beneficiary's and none of its checks was screened later |
| Drafting.ScreeningCurrent | apps/control-plane/server/postgres.ts:163-264 | the stored state is that of the last accepted check, and none was screened later |
| Drafting.OrdersCleared | apps/control-plane/server/paymentWorkflow.ts:286-296 | every order was committed while its beneficiary belonged to its customer and was clear, the last accepted check, if any, being clear |
| Drafting.CancelBound | apps/control-plane/server/postgres.ts:983-998 | the workflow cancellation leaves bound locks alone; this one cancels a bound lock unless it has expired |
| Drafting.OnlyStatusCancels | apps/control-plane/server/postgres.ts:983-998 | in every behaviour a locked lock under an order becomes cancelled exactly by this step |
| PaymentService.CancelledWhileBound | apps/control-plane/server/postgres.ts:983-998 | a run from empty tables that ends with a cancelled lock bound to an order |
| PaymentService.ExpiredOnce | apps/control-plane/server/paymentWorkflow.ts:70-102 | a second expiry at the same instant or earlier selects nothing |
| PaymentService.DraftAlone | apps/control-plane/server/paymentWorkflow.ts:242-378 | without other transactions the steps of a draft end in exactly the drafted tables |
| PaymentService.Workflow.Configure | apps/control-plane/server/postgres.ts:1099-1151 | with acceptable texts a credential is set exactly on a known connection that is not active, which then awaits its health check; nothing else changes |
| PaymentService.Workflow.Activate | apps/control-plane/server/postgres.ts:1219-1275 | only a connection with a credential changes: to active exactly when the health check answered with a 2xx status, to failed otherwise; an active connection therefore always has a credential |
| PaymentService.Workflow.Suspend | apps/control-plane/server/postgres.ts:1278-1296 | suspends exactly an active, failed or verifying connection with a stated reason, and nothing else |
| PaymentService.Workflow.RecordObservation | apps/control-plane/server/postgres.ts:611-614 | recorded exactly for a positive cross-asset rate from an active market-data integration |
| PaymentService.Workflow.CreateRateLock | apps/control-plane/server/postgres.ts:957-981 | a lock carries the observation's assets and rate, and needs a future expiry |
| PaymentService.Workflow.ExpireRateLocks | apps/control-plane/server/paymentWorkflow.ts:76-102 | exactly the elapsed locked rows expire, each with one event |
| PaymentService.Workflow.CancelRateLock | apps/control-plane/server/paymentWorkflow.ts:112-167 | cancels exactly a locked, unbound lock with a substantive reason; otherwise nothing changes |
| PaymentService.Workflow.CreatePaymentOrder | apps/control-plane/server/paymentWorkflow.ts:242-378 | goes through exactly when no check refuses, then writes order, binding and two events; a refusal names the first failed check and leaves no trace |
| PaymentService.Workflow.RecordScreening | apps/control-plane/server/postgres.ts:163-264 | accepted exactly from an active screening integration when no recorded check is later; evidence and state are written together |
| PaymentLifecycle.StepSound | apps/control-plane/server/paymentWorkflow.ts:384-610 | every step of orders and legs keeps the lifecycle invariant |
| PaymentLifecycle.LegsBelowOrders | apps/control-plane/server/paymentWorkflow.ts:446-610 | no order or leg reaches a provider-dependent state, approved orders have a policy decision, approved legs an approved or cancelled order, and legs distinct positive numbers |
| PaymentLifecycle.ApprovedAfterOrder | apps/control-plane/server/paymentWorkflow.ts:547-610 | an approved leg's order had been approved |
| PaymentLifecycle.LegsFixed | apps/control-plane/server/paymentWorkflow.ts:384-519 | an order that left draft never returns, keeps its legs, and stays cancelled once cancelled |
| PaymentLifecycle.LegsAuthorised | apps/control-plane/server/paymentWorkflow.ts:384-443 | every leg was added to an order then in draft, for its own counterparty, which had a verified authorisation in force that day |
| PaymentLifecycle.LegHistory | apps/control-plane/server/paymentWorkflow.ts:384-610 | at the end of every legal run from empty tables each leg has the step that added it, to a draft order and for an authorised counterparty, and if it is approved a state in which its order was |
| PaymentLifecycle.ApprovedUnderCancelled | apps/control-plane/server/paymentWorkflow.ts:563-590 | two runs from empty tables that end with an approved leg under a cancelled order |
| PaymentLifecycle.CancelLeavesApproved | apps/control-plane/server/paymentWorkflow.ts:466-610 | in every reachable state, cancelling an approved order leaves or later permits an approved leg under it exactly when one of its legs is approved, or is not cancelled and has a transition to approved underway that read the order approved |
| PaymentLifecycle.Orders.Enter | apps/control-plane/server/paymentWorkflow.ts:302-309 | keeps the lifecycle invariant; the order enters as a draft, undecided and without legs, and nothing else changes |
| PaymentLifecycle.Orders.MoveTo | apps/control-plane/server/paymentWorkflow.ts:466-519 | keeps the lifecycle invariant; moves exactly as the table, the policy decision and the reason allow |
| PaymentLifecycle.Orders.AddLeg | apps/control-plane/server/paymentWorkflow.ts:384-443 | keeps the lifecycle invariant; adds one leg exactly to a draft order, for a counterparty with an authorisation in force today, under a free positive number |
| PaymentLifecycle.Orders.MoveLegTo | apps/control-plane/server/paymentWorkflow.ts:547-610 | keeps the lifecycle invariant; moves exactly as the table allows, to approved only under an approved order |
| Onboarding.Lifecycle.CreateOnboarding | apps/control-plane/server/counterpartyOnboarding.ts:111-140 | keeps stages justified and counterparties unique; succeeds exactly under its four conditions, and then the first cycle awaits the legal gate with nothing decided and the onboarding is its counterparty's only one; a refusal names the first failed check and changes nothing |
| Onboarding.Lifecycle.DecideGate | apps/control-plane/server/counterpartyOnboarding.ts:142-217 | keeps stages justified; records a decision and moves the stage, to steady state only with every approval of the cycle, or refuses without effect |
| Onboarding.Lifecycle.BeginRecertification | apps/control-plane/server/counterpartyOnboarding.ts:219-252 | keeps stages justified; succeeds exactly for a due steady-state onboarding and a future date, and then nothing is decided in the new cycle while every earlier cycle keeps its approvals; a refusal names the first failed check and changes nothing |
| Onboarding.StageAdvances | apps/control-plane/server/counterpartyOnboarding.ts:142-217 | a permitted decision leads to a stage that its cycle's decisions justify |
| Onboarding.SoundRun | apps/control-plane/server/counterpartyOnboarding.ts:111-252 | every run keeps stages justified by the decisions of their cycle |
| Onboarding.SteadyMeansCertified | apps/control-plane/server/counterpartyOnboarding.ts:142-252 | a steady-state cycle, and every earlier cycle, holds one legal approval by a compliance officer, one technical approval by an admin and two pilot approvals from the two roles by different subjects |
| Onboarding.BlockedForEver | apps/control-plane/server/counterpartyOnboarding.ts:142-252 | blocked is never left and nothing is recorded on it any more |
| Onboarding.OneOnboardingEach | apps/control-plane/server/counterpartyOnboarding.ts:117-125 | a counterparty never has two onboardings |
| VaultCleanup.DecimalValue | scripts/infra/vault_version_cleanup.py:157-165 | the text a version is looked up by spells that version |
| VaultCleanup.SelectedUnfetchedExactly | scripts/infra/vault_version_cleanup.py:92-95 | a selected version has no fetch within the grace under any spelling exactly when none is recorded under another spelling than its plain decimal text |
| VaultCleanup.AliasMissed | scripts/infra/vault_version_cleanup.py:165-168 | a version fetched a second ago, recorded with a leading zero, is selected |
| VaultCleanup.FileVersion | scripts/infra/vault_version_cleanup.py:156-168 | one version goes to the one group whose condition holds |
| VaultCleanup.Partition | scripts/infra/vault_version_cleanup.py:148-169 | the five groups together hold every version exactly as often as it has keys |
| VaultCleanup.GroupedExact | scripts/infra/vault_version_cleanup.py:148-169 | a version is in a group exactly when an entry of it meets that group's condition |
| VaultCleanup.OneGroupEach | scripts/infra/vault_version_cleanup.py:148-169 | when no two keys spell one version, each version is in exactly one group, that of its entry |
| VaultCleanup.TwoSpellingsTwoGroups | scripts/infra/vault_version_cleanup.py:148-169 | two spellings of one version put it both among the selected and among the young |
| VaultCleanup.Candidates | scripts/infra/vault_version_cleanup.py:148-169 | denied exactly under rotation, canary or a hold; otherwise the selection ascending and the four exclusions exact and in order |
| VaultCleanup.Plan | scripts/infra/vault_version_cleanup.py:197-223 | a plan comes about exactly with the lease, two readings, no hold and an unchanged digest |
| VaultCleanup.VerifyDeleted | scripts/infra/vault_version_cleanup.py:227-231 | holds exactly when every version shows a deletion time |
| VaultCleanup.Run | scripts/infra/vault_version_cleanup.py:197-236 | a request is posted exactly in apply mode, unhindered and with something to delete, and names exactly the versions let go; the run succeeds exactly when unhindered and nothing was posted, or the request and later reads succeeded and every posted version showed a deletion time |
| VaultCleanup.PostedStillLetGo | scripts/infra/vault_version_cleanup.py:221-226 | with a collision-free digest the re-read state still lets every posted version go, outside holds and rotations, and shows a recent fetch of it only under another spelling |

## Left out

- EntityResolution.Similarity: `strip` and `casefold` are a parameter, and scores are exact rationals; the comparisons come out as in floating point because one third and two thirds round down.
- CertificatePath.BuildAndValidate: signature checks, extension parsing and fingerprints are functions given with the certificates; CRL, OCSP and pinned-anchor loading are not modelled.
- Latency.Percentile: exact rationals in place of floating point, and fractions between 0 and 1 only, as its three uses have them.
- Retention.DecisionEngine.Decide: HTTP status, reason texts and the digests of denials are not modelled; the digest of an authorization is a function parameter.
- Retention.VerifyExact: token text splitting and timestamp parsing are not modelled; a malformed token is one with another signature.
- Drafting.StepConsistent: integration changes are arbitrary environment steps, which covers configuration, activation and suspension; the expiry update may cover any set of elapsed unheld rows; column overflow and duplicate provider references appear only as aborts.
- PaymentService.Workflow.Configure: the checks of the reference and endpoint texts are one flag; health results kept with a connection are not modelled.
- PaymentService.Workflow.CreatePaymentOrder: whole transactions one at a time; interleaving is the subject of the machine in `Drafting.dfy`.
- PaymentLifecycle.StepSound: recording a policy decision and changing authorisations are environment steps; a policy decision is never withdrawn, because no modelled code writes it; reasons are lengths.
- VaultCleanup.Run: JSON decoding and field validation are folded into readings that may fail; digit strings are ASCII, so other characters that Python counts as digits are not modelled.
- Activity events other than those of expiry, cancellation and drafting: rows written beside a change, without a law of their own.
- HTTP, OCSP, Vault, OpenSearch and S3 clients, metrics and audit files: input and output only.
- Evidence manifests, release gates, partner readiness and compliance case tables: field checks and small transition tables that would only add easy members.
- Treasury recommendations and FX spreads: floating-point arithmetic without a law to keep.
