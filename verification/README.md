# Replica-set reconciliation and cluster generation: a verified model

The MongoDB Terraform provider keeps a replica set the way its
`mongodb_shard_config` blocks describe it. One apply reads the live
configuration, waits for and inspects hosts to add, sends one settings
reconfig with vote raises held back, then promotes live members and adds
missing ones, one reconfig per step. A new data-bearing member is staged
without votes, waited on, and promoted once it is SECONDARY; one that never
came up is taken out again; one still syncing is left pending for a later
apply.

This project models that protocol against a server that may refuse a
reconfig, install it and still report an error, bump the version on its own,
or stop answering, and proves what holds over every run. It also covers what
is derived from the protocol (plan preview, state read-back, oplog fan-out and
aggregation, readiness waits) and the cdktn cluster generator.

## How the model is built

- `Server.dfy`: the set as one apply meets it. `Env` is a script saying how each
  successive command is answered; quantifying over scripts quantifies over all
  server behaviour. `World` is the live configuration, the clock and the log of
  everything sent and seen. The log exists in the model only.
- `MemberPlan.dfy`, `MemberPlanLaws.dfy`: partitioning, vote holding, merging,
  staging, ids, read-back, and `Target`, the members an undisturbed apply leads to.
- `ReconfigRetry.dfy`, `MemberWait.dfy`, `AddTargets.dfy`, `Reconciliation.dfy`,
  `Apply.dfy`: the operations as functions from world to world.
- `Protocol.dfy`: which reconfigs are legal steps, which logs are histories, and
  what every history keeps. `ReconciliationLaws.dfy`, `PhaseLaws.dfy`,
  `ApplyLaws.dfy` prove that every operation, on every script, leaves a history,
  and draw the conclusions. `RollbackLaws.dfy`: what an add comes to, by what its
  wait showed. `ApplySteps.dfy`, `CalmApply.dfy`: which steps an apply that
  finishes has sent, and when one finishes.
- `ReplicaSet.dfy`, `Wrappers.dfy`, `Timing.dfy`: the documents exchanged with a
  server, and the small pieces every module shares.
- `Client.dfy`, `PlanLoops.dfy`, `ShardMembers.dfy`, `ShardConfig.dfy`: the same
  operations as they run (classes whose fields change, loops over maps and
  slices), each method proved to leave exactly the world and the result its
  function gives. `ShardConfig.UpdateWithClient` is the whole apply.
- `Preview.dfy`, `PreviewSteps.dfy`, `Oplog.dfy`, `Readiness.dfy`,
  `ShardAddress.dfy`: what is derived from the protocol, and the waits around it.
- `Text.dfy`, `Terraform.dfy`, `TerraformLaws.dfy`, `ClusterPlan.dfy`,
  `Cluster.dfy`, `ClusterLaws.dfy`, `ClusterCoverage.dfy`, `ClusterContents.dfy`,
  `ClusterNames.dfy`, `ClusterFailures.dfy`: the cluster generator, as a plan (functions),
  the builders that mutate a shared stack (methods proved against the plan), and
  the laws of the document that comes out.

Assumptions, all stated as `requires` or in the types:

- Between reading a configuration and installing the next one, anyone else only
  bumps the version (the retry resends the members it read before a conflict).
- The live members have distinct hosts; MongoDB enforces it. Laws of an apply
  take blocks its own validation accepts; blocks it rejects end it with nothing
  sent (`ApplyLaws.RefusalSendsNothing`).
- A context is the instant it ends. A rollback after cancellation gets a context
  of its own, 30 seconds from when it starts. When a pause and the context end
  at the same instant the context wins.
- Time is in milliseconds and every command may take any time. A script may
  answer after the context ended: the model allows more than the driver does.
- Floating-point priorities and oplog sizes are reals.

## Where the code and what one would expect differ

- The preview shows a promotion for a block that gives a live arbiter a vote;
  the apply never sends it. `PreviewSteps.PreviewShowsTheSteps` proves when
  the lines agree with the steps taken, `Preview.ArbiterRaiseIsOverstated` is a case where they do not.
  A server holds no arbiter without a vote (mongodb/shard_members.go:88-95), and
  on what it does hold the preview is exact (`Preview.PreviewIsExact`), as long as
  state covers the live hosts the planned blocks name
  (`Preview.StateReflectsExactlyWhen`).
- The readiness error can say that connections were not accepted while its last
  error is a refused login: when the very first attempt is refused only after
  the context has ended. `Readiness.ReportIsCoherentExactlyWhen` is the exact
  condition, `Readiness.LateRefusalIsMisreported` the case.
- Valid cluster properties can still panic: an empty first mongos group, or any
  empty mongos group that declares original users, makes the generator index an
  empty list, and a node without credentials in a cluster without any makes it
  ask absent credentials for a user name (cdktn/provider_factory.go:24-39).
  `ClusterLaws.BuiltExactlyWhen` is the exact condition,
  `ClusterFailures.EmptyMongosPanics` and `ClusterFailures.MissingCredentialsPanic`
  are the cases.
- An apply that finishes need not leave state as declared: an arbiter's vote
  raise stays held for good. `ApplyLaws.FinishedStateIsDeclaredExactlyWhen` is the
  exact condition.
- The generated document depends on how the sort orders ties when two differing
  declarations end up under one resource name.
  `ClusterNames.DocumentIsDeterministicExactlyWhen` is the exact condition on the
  declared names, `ClusterFailures.CollidingRolesAreAmbiguous` a case.

## Model

| member | source | states |
|---|---|---|
| ApplyLaws.Resumability | mongodb/resource_shard_config.go:662-770 | After any number of applies of the same blocks, cut short anywhere by any server behaviour, an apply that finishes with nothing pending leaves exactly the members one undisturbed apply would have left: ids, order and all fields; with the same settings of the same set the two configurations differ in the version alone |
| ApplyLaws.FinishingReachesFirstTarget | mongodb/resource_shard_config.go:662-770 | An apply that finishes with nothing pending reaches the target the first of the cut-short applies before it set out for |
| ApplyLaws.FinishedStateIsDeclaredExactlyWhen | mongodb/resource_shard_config.go:236-346 | The state an apply that finishes leaves, read as blocks again, is the declared blocks exactly when every block that raises a live member's votes is one the apply promotes |
| CalmApply.CalmApplyFinishesTheJob | mongodb/resource_shard_config.go:662-770 | After any applies of the same blocks cut short anywhere, one whose hosts to add pass, whose waits each meet their target in the end, and whose reconfigs are accepted without a conflict completes and leaves what it would have left had it come first, all but the version |
| ApplyLaws.FurtherApplyChangesNoMember | mongodb/resource_shard_config.go:662-770 | Once the target is reached a further apply sends only configs with exactly the members it met and leaves them so, whatever the server does |
| ApplyLaws.ApplyConservesTarget | mongodb/resource_shard_config.go:662-770 | However an apply ends, the members it leaves aim at the same target as those it met |
| ApplyLaws.AttemptsConserveTarget | mongodb/resource_shard_config.go:662-770 | The same over any chain of applies, each meeting what the one before it left |
| ApplyLaws.ApplyFollows | mongodb/resource_shard_config.go:662-783 | Every apply leaves a legal history; the merge never fails once blocks are validated and partitioned; one that ran its member phase and could read the configuration, whether the phase failed or not, has the requested settings live and as state the read-back of the members it leaves; with no error and nothing pending it is at the target |
| Preview.RecordedStateIsLive | mongodb/resource_shard_config.go:764-783 | Failed or not, such an apply records exactly the declared hosts that are live, as they are live |
| ApplyLaws.VotingGate | mongodb/shard_members.go:87-105 | In every config an apply sends, a member of the set has no more votes than at the start, and an added data-bearing member has votes 0 and priority 0, unless an earlier status of that run showed the host up and SECONDARY or PRIMARY |
| ApplyLaws.ApplyIsSound | mongodb/shard_members.go:381-583 | In every config sent and in what is left, the members met keep place, id, host and slave delay, everyone else was added for its block, and hosts and ids stay distinct |
| ApplyLaws.ApplyQuorumsOverlap | mongodb/shard_members.go:381-583 | For every reconfig of an apply but the settings one, any majority of the voters met and any majority of the voters sent share a voter |
| ApplyLaws.PendingWasSyncing | mongodb/resource_shard_config.go:764-783 | A member an apply reports as pending had one of that very apply's waits: every event of the wait is a status, one showed the host up, none showed it SECONDARY or PRIMARY |
| ApplyLaws.RefusalSendsNothing | mongodb/resource_shard_config.go:700-723 | An apply that fails to read, to validate, to reach or to accept its targets has sent no reconfig and changed nothing but the version others bumped |
| ApplyLaws.NewArbiterWasInspected | mongodb/resource_shard_config.go:696-724 | A new arbiter appears in a sent config only if that run had probed its host before, and the answer was classified addable |
| ApplyLaws.NewMemberWasInspected | mongodb/shard_members.go:173-201 | Whoever is new in a sent config was inspected in that run: when its host was last probed before, it answered as one that may be added, or gave no answer and bears data |
| ApplyLaws.PreparationIsComplete | mongodb/resource_shard_config.go:696-724 | Nothing is sent before a probe of every missing host got through and every one of them was probed again after that, in block order |
| ApplyLaws.EarlyEndsExactlyWhen | mongodb/resource_shard_config.go:662-723 | An apply ends unread exactly when the first read fails, invalid exactly when read and the blocks are invalid; it stops at a missing host only if that was last probed and still silent as the context ended, or unfit |
| ApplyLaws.SettingsOutlastSetbacks | mongodb/resource_shard_config.go:724-745 | The settings reconfig goes through transient errors and foreign bumps that timeout and context leave time for |
| ApplyLaws.FinishEndsExactlyWhen | mongodb/resource_shard_config.go:764-783 | The member phase and the last read decide the end: applied with the phase's pending members, failed with its error, or state unread, each exactly when |
| CalmApply.CalmApplyCompletes | mongodb/resource_shard_config.go:662-770 | On a server that answers every read of the configuration and accepts every reconfig, with none meeting a version conflict, an apply finishes with nothing pending exactly when its hosts to add pass and each wait it runs, however often it polls, meets its target; it is then at the target after one settings reconfig, one per missing block and one per promotion due |
| ApplySteps.FinishingTakesTheStepsDue | mongodb/resource_shard_config.go:662-770 | Whatever the server refused, lost or delayed on the way, an apply that finishes has sent, resends aside, exactly the steps due in this order: settings, one promotion per vote raise it can carry out, then for each missing block its staging and its promotion if it needs one; accepted without conflict, each is one reconfig |
| ApplySteps.SettleDoneExactlyWhen | mongodb/shard_members.go:466-523 | A wait ends in a settled member exactly when it met its target and the promotion due, if any, succeeded |
| CalmApply.WelcomeHostsPass | mongodb/resource_shard_config.go:696-724 | Hosts that answer as addable, or under host_override data-bearing ones while the context lasts, pass the wait and the inspection |
| Protocol.HistoryIsSound | mongodb/shard_members.go:381-583 | Every history keeps the members it started from in place with id, host and slave delay, adds only for blocks, and keeps hosts and ids distinct |
| Protocol.HistoryConservesTarget | mongodb/shard_members.go:381-583 | No step of a history, however far it got, moves the target |
| Protocol.LegalConservesTarget | mongodb/shard_members.go:381-583 | Staging, promoting, rolling back and merging each leave the target where it was |
| Protocol.SentIsGated | mongodb/shard_members.go:87-105 | Every config of a history is gated by what was seen before it was sent |
| Protocol.StartStaysPrefix | mongodb/shard_members.go:381-432 | When the blocks name no live member, the members met stay an unchanged prefix |
| Protocol.MajoritiesMeet | mongodb/shard_members.go:87-99 | Majorities of two voter sets that differ in at most one member share a voter |
| Protocol.MemberStepsOverlap | mongodb/shard_members.go:381-583 | Each reconfig of the member phase changes the voters by at most one member |
| PhaseLaws.ReconcileAccounts | mongodb/shard_members.go:434-445 | Whatever the server answers: members met change by promotions only, members added follow in block order with fresh ids, every pending member was seen up in its own wait of this phase, which never showed it SECONDARY or PRIMARY, and without an error each block is the next pending entry with its earlier values, or its member is live and has the votes and priority asked for, unless it was live before and its block is one no promotion is sent for |
| PhaseLaws.PendingInPhase | mongodb/shard_members.go:434-510 | Whoever the member phase returns as pending had one of that phase's own waits, from its first poll to its last: it read statuses only, one showed the host up, none SECONDARY or PRIMARY |
| PhaseLaws.QuorumsOverlap | mongodb/shard_members.go:381-583 | For every reconfig of the member phase, any majority of the voters met and any majority of the voters sent share a voter |
| PhaseLaws.AddsKeepTheRest | mongodb/shard_members.go:381-432 | Given hosts that are not live, the members met stay an unchanged prefix of every config sent and of the result, ids and hosts stay distinct, and a joining id is above every id it meets |
| PhaseLaws.PromotionsFollow | mongodb/shard_members.go:447-464 | Promoting changes votes and priority of named members only, stops at the first error, and accounts for every block otherwise |
| PhaseLaws.AddsFollow | mongodb/shard_members.go:381-432 | Adding appends staged or finished members in block order, stops at the first error, and accounts for every block otherwise |
| PhaseLaws.PhaseStopsAtFirst | mongodb/shard_members.go:381-464 | Promotions and then adds have their turns in block order, past members left pending, until the first hard error, which is the phase's; after a failed promotion no add starts |
| PhaseLaws.SettleSends | mongodb/shard_members.go:466-523 | After a wait, only a promotion of the member it showed synced, or the removal of a member added just now of which at least one status was read and every status read showed it down or unlisted |
| RollbackLaws.SettleEndsExactlyWhen | mongodb/shard_members.go:466-523 | What a wait that was not met comes to, by its statuses: a member added just now, read and never up, is taken out, on 30 seconds of its own after an interruption; otherwise nothing is sent, and the member is pending exactly when it was seen up in an uninterrupted wait and asks for votes |
| RollbackLaws.DeadAddIsUndone | mongodb/shard_members.go:392-501 | An add whose member was read and never seen up: once the configuration can be read, the next event is the reconfig without it, and with bearable setbacks the add leaves exactly the members it met, interrupted or not |
| RollbackLaws.FailedStagingIsUndone | mongodb/shard_members.go:405-424 | A staging reported failed but installed is undone in the same way; one that was not has nothing sent for it |
| RollbackLaws.RemovalTakesOut | mongodb/shard_members.go:557-583 | Taking out the member added last sends the members without it at once, and goes through transient errors that leave it time; a host that is not there has nothing sent for it |
| RollbackLaws.MemberWaitExactlyWhen | mongodb/shard_members.go:466-476 | A member's wait polls every 500ms until the timeout, for ARBITER, SECONDARY or being up as its block needs, and is met exactly when a poll in time shows it |
| RollbackLaws.StagingOutlastsSetbacks | mongodb/shard_members.go:392-408 | A staging goes through transient errors that timeout and context leave time for |
| RollbackLaws.PromotionOutlastsSetbacks | mongodb/shard_members.go:525-555 | So does a promotion, after which the named member has its block's votes and priority and every other member is unchanged |
| RollbackLaws.PromotionSentExactlyWhen | mongodb/shard_members.go:525-555 | A promotion is sent exactly when the configuration is read and lists the host with other votes or another priority than the block's, and changes those two of that member alone |
| PhaseLaws.PendingMeansSyncing | mongodb/shard_members.go:497-510 | A pending member was seen up during its wait, never met SECONDARY or PRIMARY, and nothing was sent for it |
| PhaseLaws.MemberPhaseKinds | mongodb/shard_members.go:381-583 | The member phase sends stagings, promotions and rollbacks only and touches neither name nor settings |
| ReconciliationLaws.RemoveUndoesAdd | mongodb/shard_members.go:557-583 | A rollback takes out the member just added or nothing, and says which |
| ReconciliationLaws.PromoteFollows | mongodb/shard_members.go:525-555 | A promotion changes the named member only, and on success its votes and priority are the block's |
| ReconciliationLaws.SettleAdded | mongodb/shard_members.go:466-523 | A member just staged ends finished, staged and pending, or taken out, never anything else |
| ReconciliationLaws.AddFollows | mongodb/shard_members.go:392-432 | One add leaves the members as they were, or followed by the block's member, staged or finished |
| ReconciliationLaws.NotLiveNotStart | mongodb/shard_members.go:14-27 | A block missing from the live members names no member of the start, so no rollback can touch one |
| ReconciliationLaws.SendFollows | mongodb/shard_init.go:205-252 | Sending a legal step through refusals, conflicts and lost acknowledgements leaves the members met or the members sent, the latter on success |
| ReconfigRetry.SendOnlyMovesVersion | mongodb/shard_init.go:216-252 | Every attempt sends the same config but for its version; success means it is the live one |
| ReconfigRetry.SendIsBounded | mongodb/shard_init.go:216-252 | At most timeout/500ms + 2 attempts, each allowed the time left, or 500ms if that is more |
| ReconfigRetry.SendEndsInTime | mongodb/shard_init.go:216-252 | If the server honours maxTime and re-reading takes no time, it ends within the timeout and one second |
| ReconfigRetry.SendOutlastsSetbacks | mongodb/shard_init.go:205-252 | Transient errors cannot defeat a send in any mix: if refusals with code 17405 or 308, conflicts from foreign bumps and reconfigs installed but reported failed come to k failed attempts at most, and k rounds fit before the deadline and the context, attempt k + 1 at the latest installs the config |
| ReconfigRetry.SendTriesAgainExactlyWhen | mongodb/shard_init.go:222-250 | Another attempt follows exactly when the one before failed with code 17405, 103 or 308 before the deadline, the version could be read again if it had conflicted, and the pause ended before the context |
| ReconfigRetry.SendGivesUp | mongodb/shard_init.go:222-250 | A send is rejected only by an error with none of these codes, unresolved only after the deadline, unread only where re-reading failed, cancelled only once the context is over; the error is the last attempt's |
| Client.SetReplSetConfigWithRetry | mongodb/shard_init.go:216-252 | The loop leaves exactly the world and result of Send and changes nothing of the config but its version |
| Client.RereadVersion | mongodb/shard_init.go:233-242 | After a conflict the version is one above the live one; other errors keep it |
| MemberWait.AwaitSumsUp | mongodb/shard_members.go:277-319 | Observed, ever reachable and met sum up exactly the statuses read; met is the last of them and implies reachable, which implies observed; nothing is sent |
| MemberWait.AwaitIsBounded | mongodb/shard_members.go:289-319 | A wait polls at most timeout/poll + 2 times |
| MemberWait.AwaitMeetsExactlyWhen | mongodb/shard_members.go:277-319 | A wait meets its target exactly when a poll shows it that is made in time, which depends on the answers' durations, the deadline and the context alone; it fails only after its deadline and is interrupted only once the context is over |
| MemberWait.ObservedExactlyWhen | mongodb/shard_members.go:247-275 | A status shows a host up exactly when the first row of its name has health 1, and at the target when that row is also in state 1 or 2, or 7 for an arbiter |
| MemberWait.MetImpliesUp | mongodb/shard_members.go:247-275 | A status that meets any target shows the host up |
| Client.WaitForMemberState | mongodb/shard_members.go:289-319 | The polling loop leaves exactly the world and result of Await |
| PlanLoops.ObserveMember | mongodb/shard_members.go:247-275 | The scan of the status rows computes Observe: the first row named so decides |
| AddTargets.PreflightProbesInOrder | mongodb/shard_members.go:173-201 | Probes go out in block order and stop at the first refusal; all passed exactly when the apply may go on |
| AddTargets.PreflightPassesExactlyWhen | mongodb/shard_members.go:126-201 | The inspection lets the apply go on exactly when every host either answered that it runs with --replSet, belongs to no set and is no mongos, or gave no answer and bears data; otherwise it names the first that did not |
| AddTargets.ArbitersAreInspected | mongodb/shard_members.go:186-199 | An arbiter passes only on an answer classified addable |
| AddTargets.AddableExactlyWhen | mongodb/shard_members.go:126-154 | A host is addable exactly when it runs with --replSet, belongs to no set and is no mongos; unknown exactly when it gave no answer |
| AddTargets.WaitForTargetsQuiet | mongodb/shard_ready.go:207-222 | Waiting for targets sends no reconfig |
| AddTargets.AwaitReachableQuiet | mongodb/shard_ready.go:68-96 | Waiting for one host sends no reconfig |
| AddTargets.ReachedExactlyWhen | mongodb/shard_ready.go:68-96 | A host is reached exactly when an attempt that is made gets an answer, and left undecided exactly when one fails in time by anything but a failed connection; failed connections are tried again every ten seconds, and given up only once the context is over |
| AddTargets.EveryTargetIsAwaited | mongodb/shard_ready.go:207-222 | Every host to add is waited for: the apply goes on only if a probe of each got through, answered or failed by anything but the connection; it stops at one of them, the last it probed, only once the context is over |
| ShardMembers.WaitUntilReachable | mongodb/shard_ready.go:68-96 | The retry loop leaves exactly the world and result of AwaitReachable |
| ShardMembers.WaitForAddTargets | mongodb/shard_ready.go:207-222 | The loop over hosts stops at the first that stays silent until the context ends |
| ShardMembers.PreflightAddTargets | mongodb/shard_members.go:181-201 | The loop over blocks leaves exactly the world and result of Preflight |
| MemberPlan.PartitionSplits | mongodb/shard_members.go:14-27 | A block is missing exactly when no live member has its host, existing exactly when one has |
| MemberPlan.PartitionConserves | mongodb/shard_members.go:14-27 | Existing and missing blocks together are the blocks, none lost or doubled |
| MemberPlan.PartitionKeepsOrder | mongodb/shard_members.go:14-27 | Both parts keep the order of the blocks |
| MemberPlan.MissingAfterAdd | mongodb/shard_members.go:60-85 | Adding the first missing block's member removes just that block from the missing |
| MemberPlan.NextIdAppended | mongodb/shard_members.go:57-68 | A member given the next id pushes the next id up by one |
| MemberPlanLaws.MergeFailsOnlyOnUnknownHosts | mongodb/resource_shard_config.go:196-226 | Merging fails exactly when a block names a host no member has |
| MemberPlanLaws.MergedPointwise | mongodb/resource_shard_config.go:196-226 | Merging writes each named member's own block over it, every other member unchanged, order kept |
| MemberPlanLaws.SettingsReconfig | mongodb/resource_shard_config.go:724-730 | After partitioning and holding, the merge always succeeds and turns every live member into its settled form |
| MemberPlanLaws.SettingsNeverRaiseVotes | mongodb/resource_shard_config.go:724-730 | It gives each named member the smaller of live and block votes, keeps ids, hosts, slave delays and order, and leaves unlisted members alone |
| MemberPlanLaws.ArbitersGetNoPriority | mongodb/resource_shard_config.go:306-346 | An arbiter is staged, and merged unless its vote raise is held, with priority 0 whatever its block says |
| MemberPlanLaws.PromotionConservesTarget | mongodb/shard_members.go:525-555 | A promotion keeps the target |
| MemberPlanLaws.AddConservesTarget | mongodb/shard_members.go:392-432 | Adding the first missing block's member in any form that finishes as the block keeps the target |
| MemberPlanLaws.SettingsConserveTarget | mongodb/resource_shard_config.go:724-730 | The settings reconfig keeps the target |
| MemberPlanLaws.TargetIsStable | mongodb/resource_shard_config.go:662-770 | The target of the target is itself |
| MemberPlanLaws.ReadBackUndoesMerge | mongodb/resource_shard_config.go:196-346 | For distinct blocks whose hosts are live, reading state from the merged members gives the blocks back, and merging that state again changes no member |
| MemberPlanLaws.TargetGivesBlocksBackExactlyWhen | mongodb/resource_shard_config.go:236-346 | State read back at the target is the declared blocks exactly when every block that raises a live member's votes is one an apply promotes |
| Preview.ReadBackHolds | mongodb/resource_shard_config.go:236-284 | Whatever state lists is the live member of some managed host |
| Preview.ReadBackFinds | mongodb/resource_shard_config.go:236-284 | Every managed host that is live is listed, as it is live |
| PlanLoops.PartitionMemberOverrides | mongodb/shard_members.go:14-27 | The loop over a map by host computes Existing and Missing |
| PlanLoops.HoldPromotions | mongodb/shard_members.go:36-55 | The loop computes the held blocks and the promotions |
| PlanLoops.NextMemberID | mongodb/shard_members.go:60-68 | The loop computes one above every id |
| PlanLoops.ValidateMemberOverrides | mongodb/resource_shard_config.go:290-302 | Finds no fault exactly when hosts are non-blank and distinct |
| PlanLoops.RSConfigMembersToState | mongodb/resource_shard_config.go:245-284 | The loop computes ReadBack |
| ShardConfig.ExtractMemberOverrides | mongodb/resource_shard_config.go:306-346 | Arbiters get priority 0, empty tags are none |
| Client.RSConfig.MergeMembers | mongodb/resource_shard_config.go:196-226 | The in-place merge succeeds exactly when Merged does and leaves its members |
| ShardMembers.RemoveMemberByHost | mongodb/shard_members.go:560-583 | Leaves exactly the world and result of RemoveMember |
| ShardMembers.PromoteMemberByHost | mongodb/shard_members.go:527-555 | Leaves exactly the world and result of PromoteMember |
| ShardMembers.SettleMember | mongodb/shard_members.go:474-523 | Leaves exactly the world and result of Settle |
| ShardMembers.AddMembersSequentially | mongodb/shard_members.go:392-432 | The loop leaves exactly the world and result of AddMembers |
| ShardMembers.PromoteMembersSequentially | mongodb/shard_members.go:452-464 | The loop leaves exactly the world and result of PromoteMembers |
| ShardMembers.ReconcileMembers | mongodb/shard_members.go:438-445 | Promotions first, then adds, unless promoting failed: exactly Reconcile |
| ShardConfig.UpdateWithClient | mongodb/resource_shard_config.go:662-770 | The whole apply, step by step on a mutable config, leaves exactly the world and result of ApplyOnce, of which the laws above speak |
| ShardConfig.PrepareTargets | mongodb/resource_shard_config.go:702-723 | Waiting and inspection before anything is sent: exactly Prepare |
| ShardConfig.FinishUpdate | mongodb/resource_shard_config.go:764-783 | Member phase and read-back, failed or not: exactly Finish |
| Client.ReplicaSetClient.SetReplSetConfig | mongodb/replica_set_types.go:287-317 | One reconfig: stale versions conflict, others are accepted, refused, or installed and still reported failed |
| Preview.ChangesAreAnnounced | mongodb/command_preview.go:297-326 | When state reflects the live members, hosts marked as added are exactly the missing ones and those marked as promoted exactly the vote raises and the staged adds that need one |
| Preview.ChangesExactlyWhen | mongodb/command_preview.go:297-326 | Of any planned blocks, with unknown and repeated hosts among them, the changes are exactly those the first block of each known host calls for |
| Preview.StateReflects | mongodb/command_preview.go:276-326 | State read back in block order reflects the live members |
| Preview.CountPreviewLines | mongodb/command_preview.go:243-326 | Against any state that reflects the live members the blocks name, a preview of an update or a create has one reconfig line for the settings, one per missing block, one per promotion of those, one per vote raise |
| Preview.PreviewCountsReconfigs | mongodb/command_preview.go:243-326 | Against any such state, whatever other blocks it holds and in whatever order, and whatever the server does: an apply that finishes never takes more steps than previewed reconfigs, and exactly as many if and only if every vote raise is one the apply promotes; on a server that accepts everything without conflicts each step is one reconfig |
| PreviewSteps.PreviewShowsTheSteps | mongodb/command_preview.go:243-326 | Line by line: an apply that finishes takes exactly the steps shown, each add by its kind and each promotion with its votes and priority; the preview shows besides them only promotions of vote raises that stay held, none exactly when every vote raise is one the apply promotes |
| PreviewSteps.CreatePreviewShowsTheSteps | mongodb/command_preview.go:445-469 | The same of a create's preview, with the initiation, and the apply that meets the one member the initiation made |
| PreviewSteps.PreviewOpens | mongodb/command_preview.go:243-272 | A create's initiation is shown first, the settings reconfig next, then the changes in block order |
| Preview.CreatePreviewCountsReconfigs | mongodb/command_preview.go:445-469 | The same of a create's preview and the apply that meets the one member the initiation made |
| Preview.PreviewIsExact | mongodb/command_preview.go:243-326 | On a set a server accepts, where arbiters vote, with blocks of at most one vote that leave arbiters what they are, the preview has exactly as many reconfig lines as an apply that finishes takes steps |
| Preview.StateReflectsExactlyWhen | mongodb/command_preview.go:276-326 | State read back over the hosts of any earlier blocks reflects the live members the new blocks name exactly when it covers every one of them that is live |
| Preview.ArbiterRaiseIsOverstated | mongodb/command_preview.go:300-326 | For a live arbiter without a vote whose block gives it one, the preview has two reconfig lines, and an apply that finishes on an accepting server sends the settings reconfig alone |
| Preview.CreatePreviewMatchesInitiatedSet | mongodb/command_preview.go:445-469 | A create's plan announces exactly what the apply that follows the initiation finds to do |
| PlanLoops.PreviewMemberChanges | mongodb/command_preview.go:300-326 | The loop with its live and seen maps computes Changes |
| PlanLoops.BuildShardConfigPreview | mongodb/command_preview.go:246-272 | The loop computes the lines |
| Oplog.PrimaryGoesLast | mongodb/replica_set_types.go:429-448 | The data-bearing hosts in configuration order with the primary taken out and put last |
| Oplog.NoPrimaryKeepsOrder | mongodb/replica_set_types.go:429-448 | Without a primary among them the order is the configuration's |
| Oplog.StatusDecidesOrder | mongodb/resource_shard_config.go:415-440 | The order changes only to put the host whose row is the first in PRIMARY last; without a status, or such a data-bearing host, it is the configuration's |
| Oplog.DataHostsInOrder | mongodb/replica_set_types.go:434-448 | Each member that is no arbiter contributes its host in its place |
| Oplog.ResizeOrderIsPermutation | mongodb/replica_set_types.go:429-448 | The visited hosts are a permutation of the data-bearing hosts |
| Oplog.OplogMemberHosts | mongodb/replica_set_types.go:434-448 | The two-list loop computes that order |
| Oplog.ResizeOplogAcrossMembers | mongodb/replica_set_types.go:450-477 | On success every host was attempted and at least one resized; on an error exactly the prefix up to the failing host was; skipping all is an error |
| Oplog.ReadConcurrently | mongodb/replica_set_types.go:508-520 | Reads finishing in any order fill the slots alike |
| Oplog.OplogSizeAcrossMembers | mongodb/replica_set_types.go:479-540 | The common size when readable members agree, the mismatch marker exactly when two differ, nothing exactly when none is readable |
| Oplog.ApplyOplogConfig | mongodb/resource_shard_config.go:397-484 | Runs exactly when a size is known and new or changed; success means every PRIMARY or SECONDARY host was resized and there was one |
| Oplog.ReadOplogConfig | mongodb/resource_shard_config.go:486-542 | After an attempted resize state never claims a size no member confirmed; host_override stores nothing |
| Readiness.WaitForShardClient | mongodb/shard_ready.go:153-205 | The loop ends as Ends says: how many attempts, which end, and which report |
| Readiness.EndIsUnique | mongodb/shard_ready.go:153-205 | One script of answers gives one wait: its length, end and report are determined |
| Readiness.EndsExactlyWhen | mongodb/shard_ready.go:110-205 | Connected exactly when an attempt it gets to make succeeds; no-auth exactly when such an attempt is a login refused in time by a host that answers a probe without credentials; fatal exactly when one fails in time by neither a refused login nor a failed connection |
| Readiness.ReportIsCoherentExactlyWhen | mongodb/shard_ready.go:160-205 | The last error is that of the latest attempt that failed in time, or of the first if none did; headline and detail speak of the same attempt exactly when the first attempt failed in time or was no refused login |
| Readiness.LateRefusalIsMisreported | mongodb/shard_ready.go:190-203 | A login refused only after the context ended is reported as connections not accepted |
| Readiness.AttemptsAreBounded | mongodb/shard_ready.go:153-205 | Attempts are a pause apart and none but the first begins after the context ended |
| Readiness.WaitForPrimary | mongodb/shard_init.go:182-203 | Elected exactly when a poll it gets to make shows PRIMARY; which polls those are; at most timeout/500ms + 1 |
| ShardAddress.ParseUndoesBuildExactlyWhen | mongodb/shard_discovery.go:80-98 | Parsing a built string gives name and hosts back exactly when the name is non-empty without a slash, no host has a comma, and the list is neither empty nor one empty host |
| ShardAddress.BuildUndoesParse | mongodb/resource_shard.go:31-35 | Building from a parsed string gives that string |
| ShardAddress.ParsesExactlyWhen | mongodb/shard_discovery.go:83-98 | A string parses exactly when its first slash has something before and behind it |
| ClusterLaws.AliasNamesAreInjective | cdktn/provider_factory.go:8-14 | An alias determines component type, replica set name and index |
| ClusterLaws.ClusterAliasesAreDistinct | cdktn/cluster.go:44-108 | No two providers of a cluster share an alias |
| ClusterLaws.MongosAreNumberedThrough | cdktn/cluster.go:89-108 | Mongos aliases count on from group to group, 0 to the number of nodes |
| ClusterLaws.ClusterIsGrounded | cdktn/cluster.go:17-168 | Every provider a resource names is one of the cluster's, every dependency one of its resources, at a lower level |
| ClusterLaws.DocumentIsWellFormed | cdktn/cluster.go:17-168 | In the document of every cluster that is built, aliases are distinct, every provider reference and depends_on entry names a block, and depends_on has no cycle, however the sort orders ties |
| ClusterCoverage.EveryNodeIsProvided | cdktn/provider_factory.go:22-89 | Every node of every component has a provider under its own alias, with its own credentials if it has some and the cluster's otherwise, the default port if it names none, direct unless it is a mongos |
| ClusterCoverage.UsersAwaitTheirRoles | cdktn/resource_builder.go:12-41 | Every user of a component exists on each of its nodes and depends on every role of the cluster and the component, created on the same node |
| ClusterContents.UserTargetsExactly | cdktn/cluster.go:190-204 | The cluster's users stand on every mongos and on the first member of every shard, and nowhere else |
| ClusterContents.OriginalUserTargetsExactly | cdktn/cluster.go:170-188 | Its bootstrap users stand on the first node of every mongos group, of the config server and of every shard |
| ClusterContents.ClusterUsersStandEverywhere | cdktn/cluster.go:110-117 | Each of its users is created on each of those nodes, through the node's provider, and depends on exactly the cluster's roles there, which are created too |
| ClusterContents.ProfilersExactly | cdktn/resource_builder.go:220-263 | Every profiler and every server parameter stands on every node of the cluster, and there is no other |
| ClusterContents.ShardConfigsExactly | cdktn/resource_builder.go:45-83 | Each replica set has one shard_config with its name and settings, through its first member, and mongos groups have none |
| ClusterContents.VersionsExactly | cdktn/resource_builder.go:266-273 | A compatibility version stands on the first member of each replica set exactly when one is declared |
| ClusterContents.RoutedIsDeclaredExactlyWhen | cdktn/cluster.go:126-165 | Registrations with every host of the shard, zones, key ranges, balanced collections and the balancer are there exactly as declared, all through the first mongos, each with exactly the dependencies of what it names |
| ClusterContents.RoutedInOrder | cdktn/cluster.go:128-165 | Balancer, zones and balanced collections depend on every registration, key ranges on every zone |
| ClusterLaws.BuiltExactlyWhen | cdktn/cluster.go:17-127 | A cluster is built exactly when its properties are valid, no alias list it takes the first of is empty, and every node has credentials of its own or the cluster has some; valid properties that fail either of the last two panic |
| ClusterLaws.ValidExactlyWhen | cdktn/validation.go:10-80 | Properties are valid exactly when there is a mongos group and a shard, config server and shards have distinct non-empty names and 3 to 50 members, mongos groups 50 at most, and no two members of a component share host and port |
| ClusterLaws.ProblemExactlyWhen | cdktn/shard.go:16-27 | Which demand a component is rejected for: the first of name, minimum, maximum and distinct addresses it fails |
| ClusterLaws.ClusterDocumentIsDeterministicExactlyWhen | cdktn/stack.go:68-135 | The document is determined by the properties exactly when blocks of one address agree |
| ClusterNames.DocumentIsDeterministicExactlyWhen | cdktn/stack.go:68-135 | The document of a cluster is determined by its properties exactly when no two declarations that differ (roles, users with the roles they wait for, bootstrap users, profilers, parameters, replica sets, zones, collections) end up under one resource name once sanitized and prefixed |
| ClusterNames.BlocksAgreeExactlyWhen | cdktn/resource_builder.go:12-273 | Resources of one address agree under exactly that condition on the declared names |
| ClusterNames.SanitizeAlikeExactlyWhen | cdktn/resource_builder.go:341-354 | Two names sanitize alike exactly when they are equally long and differ only where neither has a letter or digit |
| ClusterFailures.EmptyMongosPanics | cdktn/cluster.go:126-127 | Properties with one mongos group without nodes are valid and panic |
| ClusterFailures.MissingCredentialsPanic | cdktn/provider_factory.go:24-40 | Properties with no credentials anywhere are valid, index no empty list, and panic |
| ClusterFailures.CollidingRolesDisagree | cdktn/resource_builder.go:343-354 | In any cluster, two differing cluster roles that sanitize alike make the document ambiguous |
| ClusterFailures.CollidingRolesAreAmbiguous | cdktn/resource_builder.go:343-354 | Roles "a.b" and "a_b" of different settings: the cluster is valid, is built, and its resources of one address disagree |
| TerraformLaws.SynthIsDeterministicExactlyWhen | cdktn/stack.go:68-135 | The same for any stack whose provider aliases are distinct |
| TerraformLaws.OrderedIsUnique | cdktn/stack.go:79-100 | Providers with distinct aliases have one sorted order |
| TerraformLaws.TiesMatterOtherwise | cdktn/stack.go:102-132 | When two blocks of one address differ, another sorted arrangement of the same stack is written differently |
| Terraform.GroupedHolds | cdktn/stack.go:109-132 | The document has an entry for exactly the types and names some block was added under |
| Terraform.LastIsWritten | cdktn/stack.go:109-129 | Of the blocks of one address the last in sorted order is written |
| Terraform.TerraformStack.Synth | cdktn/stack.go:69-135 | The grouping loop writes exactly the grouped blocks |
| Terraform.TerraformStack.AddProvider | cdktn/stack.go:48-54 | Appends one provider |
| Terraform.TerraformStack.AddResource | cdktn/stack.go:57-66 | Appends one resource |
| ClusterPlan.MergeRoles | cdktn/cluster.go:206-217 | Cluster roles followed by component roles, whichever is empty |
| Cluster.BuildProvidersWithOffset | cdktn/provider_factory.go:77-89 | One provider per node, aliases numbered from the offset; panics exactly when a node has no credentials and none are passed |
| Cluster.BuildRoles | cdktn/resource_builder.go:14-28 | Every role on every alias; the map refers to each alias's roles |
| Cluster.BuildUsers | cdktn/resource_builder.go:32-41 | Every user on every alias, depending on that alias's roles |
| Cluster.BuildOnEach | cdktn/resource_builder.go:236-263 | Every profiler or parameter on every alias |
| Cluster.BuildShardRegistrations | cdktn/resource_builder.go:142-158 | One registration per shard; the result refers to them |
| Cluster.BuildShardZones | cdktn/resource_builder.go:191-204 | One zone resource each, depending on the registrations; the result refers to them |
| Cluster.BuildZoneKeyRanges | cdktn/resource_builder.go:207-218 | One range resource each, depending on the zones |
| Cluster.BuildOriginalUsers | cdktn/resource_builder.go:85-138 | One resource per bootstrap user, with no provider |
| Cluster.BuildOnFirstMember | cdktn/resource_builder.go:45-138 | The shard_config and bootstrap users of a replica set, through its first member |
| Cluster.BuildFCV | cdktn/resource_builder.go:266-273 | One compatibility version per replica set, through its first member |
| Cluster.ValidateDuplicates | cdktn/validation.go:26-48 | Accepts exactly the lists without repetition |
| Cluster.ValidatePart | cdktn/validation.go:10-36 | The first demand a component fails |
| Cluster.NewReplicaSet | cdktn/shard.go:16-65 | Adds exactly the planned blocks of a replica set, or says why not, or panics on a node without credentials |
| Cluster.NewMongosWithOffset | cdktn/mongos.go:18-50 | Adds exactly the planned blocks of a mongos group, or says why not, or panics on an empty group with original users or a node without credentials |
| Cluster.BuildMongos | cdktn/cluster.go:89-108 | The loop over groups with its running offset |
| Cluster.BuildParts | cdktn/cluster.go:44-108 | Config server, shards, mongos groups in order; the first that fails decides |
| Cluster.BuildClusterAccounts | cdktn/cluster.go:110-124 | Cluster-level roles and users on all mongos and shard primaries, bootstrap users on first members |
| Cluster.BuildRouted | cdktn/cluster.go:126-165 | Everything through the first mongos, each depending on what was built before it |
| Cluster.NewMongoShardedCluster | cdktn/cluster.go:17-168 | Ends as ClusterVerdict says, and then the stack holds exactly the planned providers and resources |

## Left out

- The MongoDB driver, BSON, TLS, proxies, connection strings other than a shard's, connecting and disconnecting: a command is a step of the script.
- Error texts, warnings, logging, and the last answer kept for messages (`Last`): only which outcome is reached matters.
- Fields of a configuration that are neither members nor the five managed settings: the apply carries them through.
- The initiation path of a create (replSetInitiate, connecting without credentials, Create, Read, Import, Delete) apart from `WaitForPrimary` and the preview of a create.
- Skipping an update when only client-side attributes changed, and read-back with no member block declared.
- Quorum overlap of the settings reconfig: several blocks may lower votes at once and the server decides, so it is claimed for the member phase only.
- Oplog connections: a member's connect-and-resize, or connect-and-read, is one answer with its own timeout inside it.
- Concurrent reads as threads: `Oplog.ReadConcurrently` lets them finish in any order, each filling its own slot.
- Preview line texts: a line is which command it announces and with which host, votes and priority.
- Block settings in the cluster generator: roles, users and the rest carry their settings as opaque texts; provider settings other than host, port, credentials and directness (TLS, proxy) are not modelled. Missing credentials are absent ones: a credential source that is itself a nil pointer is not told apart.
- Distinctness of generated resource names is not claimed, since sanitizing is not injective and a block may replace another of its address; when that changes the document is (`ClusterNames.DocumentIsDeterministicExactlyWhen`).
- Terraform JSON encoding: the document is its providers and its resources grouped by type and name, with `depends_on` as a multiset since it is written sorted. The sort itself is any arrangement that is sorted.
- The warning about more than seven voting members.
- The other resources (db_user, db_role, profiler, server_parameter, balancer, zones and so on): one command each, and they would add only easy members.
- Cluster.AddBlocks: the builders of roles, users, profilers, parameters, registrations and collection balancing share this one inner loop, where the source repeats it.
- Cluster.NewReplicaSet: the config server and the shard builder are one method, as their bodies are the same but for the component type.
