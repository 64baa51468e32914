# Gatekeeper: a verified model of the quota engine

Gatekeeper is an on-chain API gateway. An organization issues API keys with roles and quota policies; every
request on a key is decided by `consume_request`, a fixed-window rate limiter that keeps two running totals,
a window, the last decision and a buffer of at most eight records. The account that holds these, the
`QuotaRuntime`, can be delegated to a rollup, where the same instruction runs on a copy of it; commits carry
snapshots of the copy back to base, and settlement compacts the runtime into a durable `AuditCheckpoint`.

The program remembers a bounded summary of an unbounded history. The model carries the whole history beside
it, as a log of every decision together with the key status, mask and limits then in force, and proves what
the summary says about the history, over every run of every instruction on both layers.

## How it is organised

- `Base`, `Permissions`, `Accounts`: machine integers with their real bounds, masks as 64-bit vectors,
  derived addresses, account contents.
- `Engine`: what each handler does to account contents, as functions. `AccountObjects` and `Handlers` do it
  in place, on objects with mutable fields and an array-backed buffer, in the order of the source (counters
  change before a later check can fail). `Ledger` checks accounts, loads objects, runs the handler and writes
  back only on success; each of its steps is proved to be the step of the state machine.
- `AuditLog`, `RateLimit`: the log, its replay, what a genuine log is, and the bounds read off one.
- `StateMachine`, `Lane`, `Invariants`: the account store with both layers and the snapshots in flight, the
  protocol of one runtime as a smaller machine, the refinement from one to the other, and the invariant.
- `Instructions`, `Authority`: for every instruction, spelled out in account contents and the source's
  constants, the exact condition on which it succeeds and the whole of what it changes; and who may act.
- `Guarantees`, `Transparency`, `Isolation`, `Revocation`, `Counts`, `Tightness`, `Reconfiguration`: theorems about
  whole runs.
- `PolicyInput`, `Health`, `Witnesses`, `Flags`: the client's policy parser linked to the program's check, the
  health summary and reconcile script linked to the protocol with states on which they go wrong, and the two
  flag scanners.

## What the model takes for granted about its surroundings

- An instruction that fails changes no account, although handlers change objects before they fail
  (`StateMachine.Apply`, `Ledger.Ledger.Process`).
- Derived addresses are injective in their seeds: an address is a constructor applied to its seeds.
- While a runtime is delegated the delegation program owns its base account: only the rollup copy can be
  written, and not once undelegation is scheduled. Commits land on base in order (the event `Deliver`), at any
  time or never, and the last one of a session hands the account back.
- The rollup reads roles, keys, policies and organizations as they are on base.
- The clock one runtime sees does not go back (`Guarantees.Timely`, asked of successful events only). Only the
  theorems that say so need it. Settlement, commits and the control plane may see any clock.
- The reconcile script may have a router configured or not; without one every read is a read of base, and
  nothing can be sent to a session (`Health.Surroundings.routed`).
- While the reconcile script runs on a key, snapshots of that key may land at each of its waits, and nothing
  else happens to the key (`Health.Surroundings`).
- A run starts where `initialize_gateway` has just created the gateway (`StateMachine.Genesis`).

## What was found

- The health summary's note that older entries have been evicted appears once the buffer holds eight entries
  (client/gatekeeper.ts:251-253). With exactly eight unsettled decisions nothing has been evicted:
  `Health.HealthIsCoherent` proves that the note is wrong exactly when drift is 8, and
  `Witnesses.EvictionNoteAtEight` reaches such a state.
- `undelegate-and-settle` does not end with an undelegated, settled runtime from every reachable state.
  `Health.UndelegateAndSettleWorksExactlyWhen` gives the exact condition on the router, on the copies the
  script's reads get and on when snapshots land between its steps; `Witnesses.NoRouterStopsTheScript`,
  `Witnesses.UnlandedSnapshotStopsTheScript` and `Witnesses.StaleFirstReadStopsTheScript` reach sessions on
  which it fails, or completes with the runtime still in its session.
- The health summary's advice fails exactly on a session already being closed (and, for a settlement, when
  the settlement counter is exhausted): `Health.AdviceWorksExactlyWhen`, with `Witnesses.SettleAdviceCanFail`.
- Shrinking a policy's window can open a second window within the second in which the first was used up. At an
  equal quota, the bound for a fixed policy survives exactly those reconfigurations that never shrink the
  window (`Reconfiguration.FixedBoundSurvivesExactlyWhen`). Under reconfigurations that do, the bound is
  larger, and `Reconfiguration.ReconfiguredBoundIsTight` shows that it cannot be improved.

## Model

| member | source | states |
|---|---|---|
| `AuditLog.ConsumeTakesVerdict` | programs/gatekeeper/src/instructions/consume_request.rs:40-81 | on a runtime whose totals add up to its sequence, a request takes the verdict revoked, invalid, unauthorized, over quota, admitted, in that precedence, moves the window only when admitted, and fails exactly when the window end leaves the i64 range (for an authorized request) or the sequence is exhausted; the totals and the window counter can never be the cause |
| `AuditLog.AppendRecords` | programs/gatekeeper/src/utils.rs:107-148 | on whatever window the verdict left, appending records that window, the sequence, the totals, the last decision and the buffer as one decision, and fails exactly when the sequence is exhausted |
| `AuditLog.CountsAddUp` | programs/gatekeeper/src/utils.rs:119-129 | admissions and rejections in a log add up to its length |
| `AuditLog.TailGrows` | programs/gatekeeper/src/utils.rs:134-145 | pushing with eviction turns the last min(8, unsettled) records of a log into the last min(8, unsettled + 1) of the longer log |
| `AuditLog.RecordKeepsMirror` | programs/gatekeeper/src/utils.rs:107-148 | a runtime that summarizes a log summarizes the longer log after recording one decision |
| `AuditLog.VerdictKeepsGenuine` | programs/gatekeeper/src/instructions/consume_request.rs:46-81 | a log stays genuine when the appended record carries the verdict of the replayed window |
| `AuditLog.ConsumeExtendsLog` | programs/gatekeeper/src/instructions/consume_request.rs:40-98 | one request extends the log by exactly the decision taken: the new runtime summarizes it, and it is genuine |
| `RateLimit.WindowsPay` | programs/gatekeeper/src/utils.rs:94-102 | while policies stay within (M, W) and no window shrinks, a window has run out before the next opens, so the current start accounts for all earlier admissions in an interval, for any clock |
| `RateLimit.RateBound` | programs/gatekeeper/src/instructions/consume_request.rs:52-71 | a genuine log under (M, W), or under any policies within it whose windows never shrink, holds at most M * (floor((L + W - 2) / W) + 1) admissions in any L seconds |
| `RateLimit.BurstBound` | programs/gatekeeper/src/instructions/consume_request.rs:52-71 | under the same policies at most 2M in any span of up to W + 1 seconds, and at most M in one second |
| `RateLimit.LifetimeBound` | programs/gatekeeper/src/instructions/consume_request.rs:52-71 | at most M * (floor((t - t0) / W) + 1) admissions by time t, under any sequence of policies within (M, W) |
| `RateLimit.ReconfiguredRateBound` | programs/gatekeeper/src/instructions/create_quota_policy.rs:31-58 | under any sequence of policies within (M, W), at most M * (floor((L - 1) / W) + 2) admissions in any L seconds |
| `RateLimit.UsageIsRecent` | programs/gatekeeper/src/utils.rs:89-105 | the window counter never exceeds the admissions logged since the window's start |
| `RateLimit.NoFalseQuotaRejection` | programs/gatekeeper/src/instructions/consume_request.rs:58-61 | a quota rejection at t under (M, W) is preceded by at least M admissions in (t - W, t], whatever the policies before |
| `RateLimit.AdmittedExactlyWhen` | programs/gatekeeper/src/instructions/consume_request.rs:46-72 | a request is admitted exactly when authorized and the window has run out or has room; an authorized request at or after the window end always is, and a rejection leaves the window and the admission total alone |
| `RateLimit.ReplayIsAudit` | programs/gatekeeper/src/utils.rs:134-141 | the replayed window is what an auditor reads off the trail: usage is the last entry's value, the start is initialization or the latest admission that opened a window |
| `RateLimit.TrailCertifiesItself` | programs/gatekeeper/src/utils.rs:134-141 | sequences are contiguous; an admitted entry counts up by one or restarts at 1 and stays within the limit then in force; a rejected one repeats its predecessor's value |
| `RateLimit.AdmissionsWereAuthorized` | programs/gatekeeper/src/utils.rs:84-87 | every admitted entry was permitted by the mask then attached, on a key then active, and that mask is valid |
| `StateMachine.FailuresLeaveNoTrace` | programs/gatekeeper/src/lib.rs:18-95 | a run equals the run of its successful instructions alone, in which every instruction succeeds |
| `Lane.OnlyDecides` | programs/gatekeeper/src/instructions/consume_request.rs:40-81 | a request leaves identity, delegation and settlement fields alone and advances the sequence by one |
| `Lane.ConsumedOnRollup` | programs/gatekeeper/src/instructions/consume_request.rs:40-98 | a request on the rollup copy keeps the protocol invariant with base and every snapshot in flight left behind |
| `Lane.DelegatedLane` | programs/gatekeeper/src/instructions/delegate_quota_runtime.rs:39-79 | opening a session keeps the protocol invariant |
| `Lane.CommittedLane` | programs/gatekeeper/src/instructions/commit_quota_runtime.rs:32-57 | sending a snapshot keeps the protocol invariant |
| `Lane.ClosedLane` | programs/gatekeeper/src/instructions/commit_and_undelegate_quota_runtime.rs:32-61 | closing a session keeps the protocol invariant, the final state last in flight |
| `Lane.DeliveredLane` | programs/gatekeeper/src/instructions/commit_quota_runtime.rs:33-46 | a landing moves base forward along the log; the last one of a closed session brings it fully up to date |
| `Lane.SettledLane` | programs/gatekeeper/src/instructions/settle_runtime_checkpoint.rs:39-80 | settlement moves the checkpoint to the whole log and clears the buffer, keeping the protocol invariant |
| `Lane.LaneInvKept` | programs/gatekeeper/src/state.rs:76-115 | every operation on a runtime keeps the protocol invariant and the account's owner |
| `Invariants.GuardsPickTuple` | programs/gatekeeper/src/instructions/consume_request.rs:16-37 | the request's constraints hold exactly for the key's own organization, role, policy and runtime |
| `Invariants.ConsumeAdmitsOneTuple` | programs/gatekeeper/src/instructions/consume_request.rs:13-38 | though they check no seeds, in every state with the invariant the constraints admit exactly one tuple of accounts per key |
| `Invariants.CreateOrganizationStep` | programs/gatekeeper/src/instructions/create_organization.rs:13-65 | creating an organization keeps every reference between accounts intact and touches no runtime |
| `Invariants.CreateRoleStep` | programs/gatekeeper/src/instructions/create_role.rs:10-57 | so does creating a role |
| `Invariants.AttachPolicyStep` | programs/gatekeeper/src/instructions/attach_policy_to_role.rs:12-37 | so does attaching a mask, which stays valid |
| `Invariants.CreateApiKeyStep` | programs/gatekeeper/src/instructions/create_api_key.rs:13-68 | so does issuing a key, whose role is one of its organization |
| `Invariants.CreateQuotaPolicyStep` | programs/gatekeeper/src/instructions/create_quota_policy.rs:10-58 | so does configuring a policy, whose limits stay positive |
| `Invariants.RevokeStep` | programs/gatekeeper/src/instructions/revoke_api_key.rs:12-40 | so does revoking a key |
| `Invariants.InitializeRefines` | programs/gatekeeper/src/instructions/initialize_quota_runtime.rs:11-99 | initialization is the initializing operation of one runtime and touches nothing else |
| `Invariants.DelegateRefines` | programs/gatekeeper/src/instructions/delegate_quota_runtime.rs:13-79 | likewise delegation |
| `Invariants.ConsumeRefines` | programs/gatekeeper/src/instructions/consume_request.rs:13-98 | likewise a request, whose context is read from the accounts of its own key |
| `Invariants.CommitRefines` | programs/gatekeeper/src/instructions/commit_quota_runtime.rs:13-57 | likewise a commit |
| `Invariants.UndelegateRefines` | programs/gatekeeper/src/instructions/commit_and_undelegate_quota_runtime.rs:13-61 | likewise commit-and-undelegate |
| `Invariants.SettleRefines` | programs/gatekeeper/src/instructions/settle_runtime_checkpoint.rs:13-80 | likewise settlement, which also adds one to its own organization's settlement count and to no other counter |
| `Invariants.RuntimeStep` | programs/gatekeeper/src/lib.rs:18-95 | every runtime instruction is one operation of one key's runtime, leaving every other key's accounts and the control plane alone |
| `Invariants.InvKept` | programs/gatekeeper/src/state.rs:14-115 | every event keeps referential integrity and the protocol invariant of every runtime |
| `Invariants.ReachableInv` | programs/gatekeeper/src/state.rs:14-115 | hence they hold in every reachable state |
| `Guarantees.RuntimeIsExact` | programs/gatekeeper/src/utils.rs:107-148 | in every reachable state counters and window are the log's, and the buffer is its last min(8, rolling - settled) records, numbered contiguously up to the rolling sequence |
| `Guarantees.CheckpointIsExact` | programs/gatekeeper/src/instructions/settle_runtime_checkpoint.rs:45-61 | in every reachable state the checkpoint summarizes exactly the settled prefix of the log, whose length both copies agree on |
| `Guarantees.NothingIsLost` | programs/gatekeeper/src/instructions/commit_quota_runtime.rs:32-46 | base is the state after a prefix of the log, settled <= base <= live; snapshots in flight are later prefixes in order; outside a session base is complete |
| `Guarantees.SettlementCatchesUp` | programs/gatekeeper/src/instructions/settle_runtime_checkpoint.rs:39-68 | a settlement, after any number of sessions, accounts for every logged request exactly once |
| `Guarantees.ConsumeFailsExactlyWhen` | programs/gatekeeper/src/instructions/consume_request.rs:13-98 | in every reachable state a request succeeds exactly on the accounts of one key, on base outside a session or on the rollup while the session is open (whatever is in flight), and unless the window end overflows or the sequence is exhausted; those two errors are MathOverflow |
| `Guarantees.AdmissionFollowsTheLog` | README.md:295-303 | in every reachable state a request that succeeds is on one key's own accounts, is logged as one entry with the verdict of the documented rules on the replayed log, is admitted exactly when authorized with the window run out or not full, and on the rollup leaves base alone |
| `Guarantees.StepAppends` | programs/gatekeeper/src/instructions/consume_request.rs:75-81 | an event adds to a key's log at most one entry, only for a request on that key, with the event's time and action and the mask, status and limits then stored |
| `Guarantees.SettledNeverDecreases` | programs/gatekeeper/src/instructions/settle_runtime_checkpoint.rs:49-60 | over every run the settled sequence never goes back and the log is only ever extended |
| `Guarantees.RunKeepsMonotone` | programs/gatekeeper/src/utils.rs:62-64 | when the clock of the successful events does not go back, logged times do not either |
| `Guarantees.RunDecidesUnder` | programs/gatekeeper/src/instructions/create_quota_policy.rs:31-58 | whatever holds of all limits successfully configured for a key in a run holds of all limits it was ever decided under; refused configurations do not matter |
| `Guarantees.RunWidens` | programs/gatekeeper/src/instructions/create_quota_policy.rs:31-58 | as long as no successful configuration of a key shortens its window, no decision is taken under a shorter window than one before it |
| `Guarantees.SuccessesConform` | programs/gatekeeper/src/lib.rs:18-95 | a run all of whose events see an advancing clock and configure alike is covered by the theorems, which ask it of the successful events only |
| `Guarantees.RateBoundOverRuns` | programs/gatekeeper/src/instructions/consume_request.rs:52-71 | the interval, burst and lifetime bounds for every run from the gateway's creation in which the configurations of a key that succeed are all (M, W), whatever else is tried |
| `Guarantees.ReconfiguredRateBoundOverRuns` | programs/gatekeeper/src/instructions/create_quota_policy.rs:36-43 | the interval bound under reconfiguration and the lifetime bound, for every run in which the configurations that succeed stay within (M, W) |
| `Guarantees.SteadyRateBoundOverRuns` | programs/gatekeeper/src/instructions/create_quota_policy.rs:31-58 | the interval and burst bounds of a fixed policy, for every run in which the configurations that succeed stay within (M, W) and never shrink the window |
| `Guarantees.NoFalseRejectionOverRuns` | programs/gatekeeper/src/instructions/consume_request.rs:58-61 | no run records a spurious quota rejection, under any reconfiguration |
| `Instructions.CreateOrganizationOutcome` | programs/gatekeeper/src/instructions/create_organization.rs:13-65 | succeeds exactly for the gateway's authority, with a name of at most 32 bytes not yet taken and room in the count; the new organization has the authority named and zero counters, and nothing else changes but the count |
| `Instructions.CreateRoleOutcome` | programs/gatekeeper/src/instructions/create_role.rs:10-57 | succeeds exactly for the organization's authority, with a name of at most 32 bytes not yet taken and room in the count; the new role has the empty mask |
| `Instructions.AttachPolicyOutcome` | programs/gatekeeper/src/instructions/attach_policy_to_role.rs:10-37 | succeeds exactly for the organization's authority, on a role of that organization and a mask of the five permission bits; the mask given replaces the one there was, and nothing else changes |
| `Instructions.CreateApiKeyOutcome` | programs/gatekeeper/src/instructions/create_api_key.rs:11-68 | succeeds exactly for the organization's authority, with a role of that organization, a label of at most 48 bytes, a fresh address and room in the count; the new key is active and names its role and creator |
| `Instructions.CreateQuotaPolicyOutcome` | programs/gatekeeper/src/instructions/create_quota_policy.rs:10-58 | succeeds exactly for the organization's authority, on a key of that organization and positive limits, which replace whatever was there |
| `Instructions.RevokeOutcome` | programs/gatekeeper/src/instructions/revoke_api_key.rs:10-40 | succeeds exactly for the authority of the key's organization while the key is active; the key becomes inactive, stamped with the time, and nothing else changes |
| `Instructions.InitializeOutcome` | programs/gatekeeper/src/instructions/initialize_quota_runtime.rs:11-99 | succeeds exactly for the authority, once, with the key's policy in place; runtime and checkpoint start empty, undelegated and at that time |
| `Instructions.DelegateOutcome` | programs/gatekeeper/src/instructions/delegate_quota_runtime.rs:13-79 | succeeds exactly for the authority, on a key's own accounts outside a session and with a positive frequency; the validator and frequency asked for are stored and a session opens |
| `Instructions.CommitOutcome` | programs/gatekeeper/src/instructions/commit_quota_runtime.rs:12-57 | succeeds exactly for the authority in an open session; the live copy is sent on its way and nothing else changes |
| `Instructions.UndelegateOutcome` | programs/gatekeeper/src/instructions/commit_and_undelegate_quota_runtime.rs:11-61 | succeeds exactly for the authority in an open session; the three delegation fields are reset, the result is sent as the last snapshot, and the session is closed to requests |
| `Instructions.SettleOutcome` | programs/gatekeeper/src/instructions/settle_runtime_checkpoint.rs:11-80 | succeeds exactly for the authority, on a key's own accounts outside a session and with room in the count; counters, window and last decision go to the checkpoint field by field, and the buffer is emptied |
| `Instructions.DecisionOutcome` | programs/gatekeeper/src/instructions/consume_request.rs:40-81 | a decision in the program's own codes and bits: reason 2, 4, 1, 3 or 0 in that precedence, what becomes of every field of the runtime, and when it overflows |
| `Instructions.RequestOutcome` | programs/gatekeeper/src/instructions/consume_request.rs:13-98 | a request on either layer: exactly when it succeeds, what it decides in those codes, and that it changes one copy of one runtime and its log and nothing else |
| `Authority.OnlyAuthoritiesAct` | programs/gatekeeper/src/instructions/create_role.rs:14-26 | everything that succeeds, but for requests and landings, is signed by the authority of the organization it acts on, or by the gateway's for a new organization |
| `Authority.OutsidersChangeNothing` | programs/gatekeeper/src/instructions/revoke_api_key.rs:12-24 | over every run in which an organization's authority signs nothing that succeeds, the organization with its counters, its roles, its keys and its policies stay exactly as they are |
| `Authority.OutsidersOnlySendTraffic` | programs/gatekeeper/src/instructions/settle_runtime_checkpoint.rs:13-37 | and the runtimes, snapshots, checkpoints and logs of its keys become exactly what the requests and landings on each key alone make of them |
| `Transparency.ConsumeIgnoresDelegation` | programs/gatekeeper/src/instructions/consume_request.rs:40-81 | a decision neither reads nor writes the delegation fields |
| `Transparency.EraseStep` | programs/gatekeeper/src/instructions/delegate_quota_runtime.rs:39-79 | a delegation step disappears under erasure; any other step is the same step on base alone |
| `Transparency.DelegationIsInvisible` | README.md:128-131 | every run, its delegation steps erased, is a run on base alone that succeeds throughout without a session, with the same gateway and control plane, logs and checkpoints, and runtimes equal but for the three delegation fields |
| `Transparency.RequestsEraseBothWays` | README.md:128-131 | a request sent to the layer that takes it succeeds exactly when the same request succeeds on base without delegation, and then with the same decision, log and runtime |
| `Transparency.ErasureHidesNoRefusal` | README.md:128-131 | nothing but delegation steps themselves is refused because of delegation, as long as requests go to the layer that takes them and settlement waits for the end of the session |
| `Isolation.ProjectStep` | programs/gatekeeper/src/instructions/consume_request.rs:13-38 | an event that concerns a key succeeds on the projected state and does the same there; any other event leaves the key's part alone |
| `Isolation.RoleStays` | programs/gatekeeper/src/instructions/create_api_key.rs:33-68 | a key keeps its role over every run |
| `Isolation.KeysAreIsolated` | programs/gatekeeper/src/instructions/settle_runtime_checkpoint.rs:13-37 | in any interleaving over many keys and tenants, the run that keeps only one key's events and its set-up succeeds, creates no other organization, role, key, policy or runtime, and gives that key the same role, policy, runtime copies, snapshots, checkpoint and log |
| `Revocation.RevokedDecisions` | programs/gatekeeper/src/instructions/consume_request.rs:46-47 | decisions on a revoked key are all KeyRevoked rejections and leave the replayed window and the admissions alone |
| `Revocation.RevocationIsPermanent` | programs/gatekeeper/src/instructions/revoke_api_key.rs:25-40 | after revocation, over every later run: the key never changes, every later decision is a KeyRevoked rejection for any action byte, and admissions and window of an existing runtime are frozen, across delegation and settlement |
| `Revocation.RevokedForGood` | programs/gatekeeper/src/instructions/revoke_api_key.rs:12-40 | revoking succeeds exactly for the authority of an active key's organization and makes that key, and no other, inactive; from then on, over every run, it stays so, every decision is a KeyRevoked rejection, and admissions and window stay what they were |
| `Counts.CountsAlongRun` | programs/gatekeeper/src/instructions/create_role.rs:29-47 | counters stay equal to the cardinalities of the accounts they count, and settlement counts grow by the successful settlements of the run |
| `Counts.CountsAreExact` | programs/gatekeeper/src/instructions/settle_runtime_checkpoint.rs:63-68 | in every run, with duplicates and failures in it, organization, role, key and settlement counts are exact |
| `Tightness.SetUpOpens` | programs/gatekeeper/src/instructions/initialize_quota_runtime.rs:45-99 | six instructions take a new gateway to one active key with an admin role, the given policy and a fresh runtime |
| `Tightness.SaturatingAdmits` | programs/gatekeeper/src/instructions/consume_request.rs:58-71 | for any number of windows there is a run that admits M requests in each, the first M in the last second of the first |
| `Tightness.RateBoundIsTight` | programs/gatekeeper/src/utils.rs:99-102 | for every (M, W) and every L for which counters and clock have room, a run admits exactly as many requests in L seconds as the rate bound permits |
| `Tightness.DoubleBurstHappens` | programs/gatekeeper/src/utils.rs:99-102 | in particular exactly 2M in two consecutive seconds across a window boundary |
| `Reconfiguration.ConfigureTakesEffect` | programs/gatekeeper/src/instructions/create_quota_policy.rs:31-58 | configuring an existing policy changes the limits of the next decision and nothing about the window or the log |
| `Reconfiguration.ShrinkingAdmits` | programs/gatekeeper/src/utils.rs:94-102 | a run that uses up a quota, shortens the window and goes on admits a further full quota in the same second and in each later window |
| `Reconfiguration.ReconfiguredBoundIsTight` | programs/gatekeeper/src/instructions/create_quota_policy.rs:31-58 | the bound under reconfiguration is attained for every (M, W) and every L for which counters and clock have room; with L = 1, twice the quota in one second |
| `Reconfiguration.ConfigureAllLeads` | programs/gatekeeper/src/instructions/create_quota_policy.rs:31-58 | one policy after another is accepted, and only the last is in force, on the same window and log |
| `Reconfiguration.ShrinkingDoubles` | programs/gatekeeper/src/utils.rs:94-102 | wherever a sequence of policies of quota M shrinks a window, a run that configures exactly this sequence admits 2M requests in one second, at any time the clock has room for |
| `Reconfiguration.FixedBoundSurvivesExactlyWhen` | programs/gatekeeper/src/instructions/create_quota_policy.rs:31-58 | for every sequence of policies with one quota: all runs, of any key, that configure this sequence keep to the bound for a fixed policy if and only if no window in it shrinks |
| `AccountObjects.QuotaRuntime.RemoveFirst` | programs/gatekeeper/src/utils.rs:143-145 | the shifting loop drops exactly the oldest record |
| `AccountObjects.QuotaRuntime.Push` | programs/gatekeeper/src/utils.rs:134-145 | the array afterwards holds the buffer with the record pushed and, past eight, the oldest evicted |
| `AccountObjects.QuotaRuntime.ResetIfExpired` | programs/gatekeeper/src/utils.rs:89-105 | in place, only the two window fields change, as specified, or the end overflows |
| `AccountObjects.QuotaRuntime.AppendAudit` | programs/gatekeeper/src/utils.rs:107-148 | in place, computes the specified append and returns the new sequence, or fails exactly as specified; delegation, settlement and window fields are not touched |
| `Handlers.ConsumeRequest` | programs/gatekeeper/src/instructions/consume_request.rs:40-98 | the handler on mutable accounts succeeds exactly when the specification does and leaves exactly the specified runtime, touching no other account |
| `Handlers.SettleRuntimeCheckpoint` | programs/gatekeeper/src/instructions/settle_runtime_checkpoint.rs:39-80 | likewise for settlement, over runtime, checkpoint and organization |
| `Handlers.InitializeQuotaRuntime` | programs/gatekeeper/src/instructions/initialize_quota_runtime.rs:45-99 | likewise for initialization; a runtime that exists is refused, a checkpoint that exists is kept |
| `Handlers.DelegateQuotaRuntime` | programs/gatekeeper/src/instructions/delegate_quota_runtime.rs:39-79 | likewise for delegation; only the three delegation fields can change |
| `Handlers.CommitAndUndelegateQuotaRuntime` | programs/gatekeeper/src/instructions/commit_and_undelegate_quota_runtime.rs:32-41 | likewise for the end of a session |
| `Handlers.CreateOrganization` | programs/gatekeeper/src/instructions/create_organization.rs:29-65 | likewise for organization creation, counting it on the gateway |
| `Handlers.CreateRole` | programs/gatekeeper/src/instructions/create_role.rs:29-57 | likewise for role creation |
| `Handlers.AttachPolicyToRole` | programs/gatekeeper/src/instructions/attach_policy_to_role.rs:25-37 | likewise for attaching a mask; invalid masks are refused |
| `Handlers.CreateApiKey` | programs/gatekeeper/src/instructions/create_api_key.rs:33-68 | likewise for key creation; an existing key is refused |
| `Handlers.CreateQuotaPolicy` | programs/gatekeeper/src/instructions/create_quota_policy.rs:31-58 | likewise for the upsert of limits; limits that are not positive are refused |
| `Handlers.RevokeApiKey` | programs/gatekeeper/src/instructions/revoke_api_key.rs:25-40 | likewise for revocation; a revoked key is refused |
| `Ledger.RunConsume` | programs/gatekeeper/src/instructions/consume_request.rs:40-98 | loading the accounts, running the handler and reading them back computes the specified decision |
| `Ledger.Ledger.Process` | programs/gatekeeper/src/lib.rs:18-95 | processing any event on objects and arrays is exactly the state machine's step, keeps the invariant, reports success and errors as specified, and changes nothing when it fails |
| `PolicyInput.MaskAllows` | programs/gatekeeper/src/utils.rs:76-87 | the mask of a set of actions is valid and allows an action exactly when it, or admin, is in the set |
| `PolicyInput.ReduceIsUnion` | client/gatekeeper.ts:158-177 | the reduction accepts exactly lists of known labels and yields the union of their bits; otherwise it reports a label that is not known |
| `PolicyInput.PolicyInputMeans` | client/gatekeeper.ts:153-178 | for every input: a numeral is handed on as it is; anything else is accepted exactly when each non-blank piece is a label, and then the mask is valid and allows an action exactly when its label or admin is among the pieces |
| `PolicyInput.ToMask` | cli/gatekeeper.ts:207-210 | the bits sent for an exact number stand for that number |
| `PolicyInput.EveryInput` | cli/gatekeeper.ts:207-216 | for any text at all: the mask gets attached exactly when the text is a numeral below 32 or a list of nothing but labels, and the role then allows an action exactly when that action or admin was asked for, by bit or by label |
| `PolicyInput.AcceptedExactlyWhenSpelled` | client/gatekeeper.ts:158-177 | a text yields a mask exactly when it is known labels and blanks joined by commas, each label spelled letter by letter in either case, with spacing from an explicit list around it |
| `PolicyInput.NumeralExactlyWhen` | client/gatekeeper.ts:154-156 | a text counts as a numeral exactly when it is decimal digits with such spacing around them |
| `PolicyInput.ValueIsDecimal` | client/gatekeeper.ts:154-156 | and its value is decimal: each digit counts ten times as much for each digit after it |
| `PolicyInput.SplitJoin` | client/gatekeeper.ts:158-159 | splitting at commas undoes joining with commas |
| `PolicyInput.EveryListParses` | client/gatekeeper.ts:158-177 | every list of known labels, each letter as written or its capital, with any listed spacing, in any order, with repeats and blanks, parses to the mask of its set of labels |
| `PolicyInput.CapitalsParse` | client/gatekeeper.ts:158-177 | in particular every list of labels all in capitals |
| `PolicyInput.LabelAcceptedExactlyWhenSpelled` | client/gatekeeper.ts:118-134 | a label in the same spellings yields its action's code, and nothing else yields one |
| `PolicyInput.LabelsAndCodes` | client/gatekeeper.ts:34-48 | the five labels with the bytes and the bits they stand for |
| `PolicyInput.DecisionsReadBack` | client/gatekeeper.ts:136-151 | the client names every decision the program records for what it was |
| `PolicyInput.EndToEndAuthorization` | programs/gatekeeper/src/instructions/attach_policy_to_role.rs:25-28 | the parsed mask is attached without error, and a request for a label, in any spelling, is then authorized exactly when that label or admin was in the list |
| `Health.SummarizeRuntimeHealth` | client/gatekeeper.ts:230-267 | the summary's fields and notes in terms of delegation, drift and buffer, its advice as a function of the two accounts, and that it throws exactly when a number it converts is 2^53 or more |
| `Health.HealthIsCoherent` | client/gatekeeper.ts:230-253 | on a coherent read the clamp is never used, drift is rolling minus settled, the buffer holds min(8, drift) entries, entries were evicted exactly when drift exceeds 8, and the note about it is wrong exactly at 8 |
| `Health.StaleReadsNeverOverReport` | client/gatekeeper.ts:230-233 | neither base nor any snapshot in flight shows more drift than there is |
| `Health.AdviceWorksExactlyWhen` | client/gatekeeper.ts:240-249 | on a read of either copy of a reachable state, the instruction the summary advises succeeds exactly when the session is not already being closed (and, for a settlement, the counter has room); no advice means nothing is due and no session is open |
| `Health.AdviceMeans` | client/gatekeeper.ts:240-249 | on a read of the live copy: undelegate-and-settle exactly when the session is open and something is due, commit exactly when it is open and nothing is, settle exactly when something is due and no session is open, nothing otherwise |
| `Health.AdviceAchieves` | client/gatekeeper.ts:240-249 | following it, with room in the counter and all snapshots landing, leaves nothing due and no session, or after a commit base equal to the live copy |
| `Health.LastLands` | scripts/reconcile-runtime.ts:83-86 | once everything in flight has landed, base holds the last snapshot sent |
| `Health.ModesResolve` | scripts/reconcile-runtime.ts:15-29 | the four modes as they are written, the default, and that nothing else resolves |
| `Health.StatusOnlyLooks` | scripts/reconcile-runtime.ts:45-53 | status changes nothing and completes exactly when the sequence it reads is below 2^53 |
| `Health.UndelegateCloses` | scripts/reconcile-runtime.ts:70-81 | undelegation succeeds exactly in an open session, closes it with one more snapshot in flight, resets the delegation fields of the live copy, and leaves log and checkpoint alone |
| `Health.LandMany` | scripts/reconcile-runtime.ts:83-86 | n landings take n snapshots out of flight, leave log, checkpoint, the whole control plane and the live copy alone, and end a session exactly when it is being closed and all its snapshots have landed |
| `Health.SecondHalfWorks` | scripts/reconcile-runtime.ts:83-101 | from the second read on: a read of base must find the account back, a read of the rollup need not, and a settlement that is due waits for the last snapshot |
| `Health.SettleWorks` | scripts/reconcile-runtime.ts:88-99 | for the operator, settlement succeeds exactly when the account is back on base and the settlement counter has room, and then nothing is left unsettled |
| `Health.UndelegateAndSettleWorksExactlyWhen` | scripts/reconcile-runtime.ts:69-102 | from every reachable state, with or without a router, with snapshots landing at any wait and no request interleaved: no log entry is lost; when it completes, exactly; what it then leaves; and that it ends undelegated with drift 0 exactly when the sequence is below 2^53, a session finds a router, the first read did not miss a close under way, every snapshot lands before the second read or, that read having gone to the rollup, before the settlement, and the counter has room for a settlement that is due |
| `Health.UnroutedWorksExactlyWhen` | scripts/common.ts:127-132 | without a router it completes exactly when there is no session, the sequence is below 2^53 and the counter has room for a settlement that is due, and then it ends clean |
| `Health.CommitOnlyWorksExactlyWhen` | scripts/reconcile-runtime.ts:54-68 | commit-only completes exactly in an open session whose sequence can be read and with a router, whichever copy it read, and leaves log, checkpoint and the live copy alone |
| `Health.SettleIfSafeWorksExactlyWhen` | scripts/reconcile-runtime.ts:103-127 | settle-if-safe completes exactly when the sequence can be read, the read does not show a delegated runtime and, if something is due, the account is back on base before the settlement and the counter has room; completing, it leaves drift 0 |
| `Health.Reconcile` | scripts/reconcile-runtime.ts:15-128 | the script on a ledger, mode by mode, with or without a router and with landings at each wait, is the procedure those theorems are about; an unknown mode or a missing runtime changes nothing |
| `Health.RunUndelegateAndSettle` | scripts/reconcile-runtime.ts:69-102 | the branch as a sequence of ledger steps, with re-reads and landings between them, computes that procedure |
| `Witnesses.EvictionNoteAtEight` | client/gatekeeper.ts:251-253 | a reachable state with drift 8 and a full buffer that still holds every record there is |
| `Witnesses.UnlandedSnapshotStopsTheScript` | scripts/reconcile-runtime.ts:83-86 | a reachable open session on which undelegate-and-settle fails when its second read goes to base before the closing snapshot lands, and completes in an unended session when that read goes to the rollup |
| `Witnesses.StaleFirstReadStopsTheScript` | scripts/reconcile-runtime.ts:70-81 | a reachable closing session on which it fails whenever its first read goes to base, whatever lands |
| `Witnesses.NoRouterStopsTheScript` | scripts/common.ts:127-132 | a reachable open session on which it fails without a router, whatever lands |
| `Witnesses.SettleAdviceCanFail` | client/gatekeeper.ts:244-246 | a reachable closing session with something due whose rollup copy reads as ready to settle, and whose settlement fails |
| `Flags.ScanLoop` | cli/gatekeeper.ts:43-58 | the index loop computes the left-to-right reading of the arguments |
| `Flags.ScanKeepsLast` | cli/gatekeeper.ts:43-58 | a flag's last occurrence decides its value: the next argument, or "true" when that is missing, empty or a flag |
| `Flags.ScanIsSound` | cli/gatekeeper.ts:43-58 | no key is set without a flag for it |
| `Flags.FlagIsWritten` | cli/gatekeeper.ts:45-50 | a flag is two dashes and a name, and the name is what it sets |
| `Flags.WrittenFlagSets` | cli/gatekeeper.ts:45-58 | `--name` written anywhere, with no `--name` after it, sets `name` to the next argument, or to "true" when there is none, it is empty or it starts with two dashes |
| `Flags.ParseCliArgs` | cli/gatekeeper.ts:39-61 | command and flags of the command-line tool |
| `Flags.ParseScriptArgs` | scripts/common.ts:34-70 | command and flags of the scripts, a leading flag put in last |
| `Flags.LeadingFlagLosesRepeats` | scripts/common.ts:56-66 | for a list that starts with a flag both parsers agree except that a later repeat of that flag loses, and agree entirely exactly when no later repeat says something else |
| `Flags.LastFlag` | cli/gatekeeper.ts:43-58 | every key that is set has a last flag |
| `Flags.SameListAgreesExactlyWhen` | scripts/common.ts:56-69 | given the same list, the parsers agree on the flags exactly when it does not start with a flag, or a later flag repeats that one and its last repeat has the same value; they agree on the command exactly when it starts with a word that is neither empty nor a flag |
| `Flags.NonFlagListsAgree` | scripts/common.ts:34-70 | for every list that does not start with a flag both parsers set the same flags, with or without a command word before it, and name the same command but for a missing one |

## Left out

- Handlers.ConsumeRequest: the contents of the account objects after an error, because failure discards them.
- Health.Reconcile: the script's closing health read and its printed summary, which change nothing.
- Flags.ScanLoop: the key `__proto__`, which a JavaScript object treats specially.
- PolicyInput.EveryListParses: lower-casing of characters outside ASCII, which can only change the text of a piece that is reported as unknown.
- Serialization, rent, bumps, space and event emission; `initialize_gateway` is the initial state, and name and label length limits are guards.
- Which error is reported when several account checks fail at once; that the instruction fails is modelled.
- The MagicBlock SDK, the delegation program and routing: represented by sessions and landings under the assumptions above. The commits a validator makes on its own at `commit_frequency_ms` are not separate events; what they would send is what `commit_quota_runtime` sends.
- The client's number library, which is taken to refuse integers from 2^53 on, is not part of this model.
- Hashing and address derivation; network, wallet and console I/O; the other scripts and commands.
- That the rollup may lag behind base in its view of roles, keys and policies.
