# Verification of the wacht monitoring core

This project models the core of wacht, an uptime monitor whose probes report check results to one server, and
proves properties of it.

The monitoring runtime (`internal/monitoring`) is a replicated-evidence protocol. Per check and probe a streak
machine records results; per check a quorum takes a strict majority of votes, promotes its state only when two
consecutive recomputes agree, and opens or resolves a durable incident when its stable state flips.

## How it is built

* **Machines and runtime.** `CheckMachine.dfy`, `QuorumMachine.dfy`, `Runtime.dfy`, `LoadRuntime.dfy`,
  `StoreTransactions.dfy` and `Server.dfy` hold classes and methods that update state in place as the code does,
  each proved against a function on values (`Results.dfy`, `Sweepers.dfy`, `Recovery.dfy`, `Store.dfy`).
* **Runs.** `MonitoringRuns.dfy` is a labelled transition system over a runtime and a store; a section that holds
  the runtime lock is one step, a transaction commits whole or not at all. `Server.dfy` proves that the methods make
  exactly these steps, so results about every run (`RunInvariants.dfy`, `Agreement.dfy`,
  `CrashConsistency.dfy`, `EvidenceLogs.dfy`, `ReportedEvidence.dfy`, `Decisions.dfy`, `Deadlines.dfy`, `Alerts.dfy`,
  `DurableIncidents.dfy`, `StoreRuns.dfy`, `RunTheorems.dfy`) hold of them. A world also carries the log of every
  assignment, which no step rewrites, and a journal of incident writes; no step reads them.
  `DriftExample.dfy` and `RevivalExample.dfy` are the runs, built on `ThreeProbes.dfy`, in which a law fails.
* **Notifications.** `Notifications.dfy` has every interleaving of store transactions; `Sender.dfy` one worker.
* **Probe side and small cores.** `ResultBatcher.dfy`, `Scheduler.dfy`, `DnsTarget.dfy`, `RateLimiter.dfy`.

Clocks, commit outcomes, webhook and post outcomes, check lookups, row and map orders and what other goroutines do
meanwhile are parameters or arbitrary choices. Times are integers in nanoseconds, the zero time is 0, and IDs are
values with a distinct empty one.

## What turned out differently than one might expect

* Memory and store do not always agree: a probe sweep recomputes quorums but persists nothing, so it can open or
  resolve an incident in memory only. `ProbeSweepCanDrift` is such a run, `ExpiryKeepsAgreementIff` the exact
  condition, checkable before the sweep, and `IncidentWriteHeals`, `SweepWriteHeals` and `RestartHeals` say what ends the
  drift, if it comes. After a restart the agreement lasts until such a sweep (`AgreementLasts`).
* A restart revives votes that a probe sweep had cleared, since the sweep leaves the row as it is
  (`SweepThenRestartRevives`). Then two downs can count as consecutive though evidence was lost between them, and an
  incident can open without a majority of probes that saw two downs in a row: `RevivedVoteOpensIncident` is such a
  run. `RestartKeepsCountIff` is the exact condition, checkable before the restart, and for all runs whose restarts
  meet it for a check every incident of that check has its evidence. With losses left out of account, every incident
  of every run has it (`EveryIncidentIsReported`).
* A deadline that falls on the zero time never comes, since that value means none (`EvidenceLastsTwoIntervals`).
* A child's last-result time survives persisting exactly when it is not the zero time (`RowRoundTrip`).
* The rate limiter never admits as much as twice its limit in one window; one less is reached.
* `captureProbeSweepRollbackLocked` and its counterpart serve an error that a probe's degradation never returns.
* A response code of 16 or more would spill into the flags of a DNS response; the callers pass 0 and 3.

## Model

| member | source | states |
|---|---|---|
| `Agreement.MemoryAndStoreAgree` | internal/monitoring/result.go:76-136 | Over every run of result batches (committed or not), evidence sweeps, heartbeats, check creation and deletion, deliveries, and crash with recovery, where probe sweeps are quiet: each active check's incident flag in memory is set exactly when it has an unresolved durable incident, writes per check strictly alternate open and resolve, an open never conflicts and a resolve always finds its row |
| `Agreement.StepKeepsAccord` | internal/monitoring/sweepers.go:146-193 | Each single step keeps that agreement and the alternating journal; a probe sweep does under the exact condition of `ExpiryKeepsAgreementIff` |
| `Agreement.ExpiryKeepsAgreementIff` | internal/monitoring/sweepers.go:50-79 | A probe expiry, which persists nothing, keeps the agreement if and only if there is no active check whose quorum is in a stable state other than its last stable one, keeps that majority without the expired probe's vote, and was last stably up or has its flag set |
| `Agreement.DriftFlipsFlag` | internal/monitoring/heartbeat.go:62-81 | A degraded probe flips a quorum's incident flag exactly in that situation |
| `DriftExample.ProbeSweepCanDrift` | internal/monitoring/sweepers.go:65-78 | A reachable state in which memory and store agree and one probe expiry makes them disagree, for every choice of three probes and a check |
| `RunTheorems.IncidentWriteHeals` | internal/monitoring/result.go:184-212 | From any reachable state, drifted or not, a committed incident write of a result restores the agreement of its active check |
| `RunTheorems.SweepWriteHeals` | internal/monitoring/sweepers.go:170-188 | So does a committed incident write of an evidence sweep |
| `RunTheorems.RestartHeals` | internal/monitoring/recovery.go:93-104 | From any reachable state a restart restores agreement for all checks |
| `Agreement.AgreementLasts` | internal/monitoring/recovery.go:93-104 | In every run whose probe sweeps since its last restart are quiet for a check, memory and store agree on that check, whatever drifted before and whatever befalls other checks |
| `Agreement.StepKeepsAgreementOn` | internal/monitoring/sweepers.go:146-193 | Each single step keeps the agreement on one check, whatever the journal of incident writes |
| `Agreement.ExpiryKeepsAgreementOnIff` | internal/monitoring/sweepers.go:50-79 | A probe expiry keeps the agreement on one check if and only if it does not flip that check's flag, by the same condition on its quorum |
| `RunTheorems.EveryIncidentHasEvidence` | internal/monitoring/quorum_machine.go:137-209 | In every run whose restarts revive no vote on the check (whatever befalls other checks), an incident opens only over a stably up check and only if at this recompute and the one before the logs of a strict majority of the then assigned probes ended in two downs with no loss of evidence between; it resolves only if at two consecutive recomputes the logs of a strict majority ended in two ups. The logs go back to the beginning of the run |
| `RunTheorems.EveryIncidentIsReported` | internal/monitoring/quorum_machine.go:137-209 | In every run, with no condition on restarts: the same with losses left out of the logs, so an incident opens only if a strict majority of the assigned probes had down as their last two results, and resolves only if a strict majority had up |
| `RunTheorems.EveryDecisionFollowsLogs` | internal/monitoring/quorum_machine.go:137-209 | The other half, over every run whose restarts revive no vote on the check and whose results for it have a time: at every recompute the stable state becomes up, or down, exactly if most assigned probes see it so at this recompute and the one before; an open incident resolves exactly if most have two ups in a row at both, and one opens exactly over a stably up check if most have two downs in a row at both |
| `RunTheorems.DurableIncidentFollowsLogs` | internal/monitoring/result.go:76-136 | If also the probe sweeps since the last restart were quiet for the check, the store has an unresolved incident of it exactly as that decision says |
| `Decisions.DecisionIff` | internal/monitoring/quorum_machine.go:137-184 | For every recompute from a quorum whose streaks count its logs: aggregate state, stable state and incident flag are exactly what the ends of the logs call for, in both directions |
| `Decisions.TallyIff` | internal/monitoring/quorum_machine.go:141-162 | The tallied state, said of logs: up if most probes last saw up (two ups each while an incident is open), down if most saw two downs, else pending before any stable state and error after |
| `Decisions.RunKeepsAlive` | internal/monitoring/result.go:76-136 | In every run whose results for a check have a time, each entry of its quorum's life is a real recompute, and rows and children with an up outcome have a time |
| `ReportedEvidence.RunKeepsWorldSupported` | internal/monitoring/recovery.go:58-91 | In every run, a streak of n equal outcomes, in memory or in a durable row, means that the last n results of the assignment were all that outcome |
| `ReportedEvidence.FlipIsReported` | internal/monitoring/quorum_machine.go:137-178 | Where streaks are such, a recompute that opens or resolves an incident has that majority of last two results before and after |
| `RunTheorems.EveryDurableIncidentHasEvidence` | internal/store/incident_notifications.go:206-228 | In every run, each incident in the store was appended by a step that has a recompute of its check, made in that very step, at which the flag rose over a stably up check and most probes had reported two downs last, at it and before it; if no restart revived a vote on the check, most saw two downs with no loss between. No recompute of a check stands for two incidents |
| `RunTheorems.EveryDurableResolutionHasEvidence` | internal/store/incident_notifications.go:230-262 | Each resolved one was resolved by deleting the check, or by a step that has a recompute of the check, made in that very step, at which the flag fell with the evidence for it, and which stands for no other incident of the check |
| `DurableIncidents.OpenedBy` | internal/monitoring/result.go:184-212 | In every run, each durable incident was appended by a step with a recompute, made in that step, at which the quorum of its check raised its flag; different incidents of a check have different recomputes |
| `DurableIncidents.ResolvedBy` | internal/monitoring/result.go:184-212 | In every run, each resolved incident was resolved by deleting its check, or by a step with a recompute, made in that step, at which the quorum lowered its flag; different incidents of a check have different recomputes |
| `EvidenceLogs.RestartKeepsCountIff` | internal/monitoring/recovery.go:58-91 | The exact condition: a restart keeps the streak of an assignment equal to the longest constant loss-free suffix of its log if and only if it is not the case that memory has no evidence for it while its row has an outcome and is reloaded |
| `EvidenceLogs.RunKeepsTracked` | internal/monitoring/check_machine.go:128-146 | In every run whose restarts meet that condition for a check, the streak of every assignment of the check is the longest constant loss-free suffix of its log, in the state reached and where the quorum's life began |
| `EvidenceLogs.RunOnlyLogs` | internal/monitoring/recovery.go:58-91 | In every run the log of an assignment is only ever extended, also by restarts |
| `EvidenceLogs.ItemIsLogged` | internal/monitoring/result.go:76-115 | A committed result is logged once, for its own assignment only |
| `EvidenceLogs.SweepIsLogged` | internal/monitoring/sweepers.go:146-193 | A committed evidence sweep logs one loss, for its own assignment only |
| `EvidenceLogs.ExpiryIsLogged` | internal/monitoring/heartbeat.go:62-81 | A probe expiry logs a loss for every assignment of the probe and nothing else |
| `EvidenceLogs.RestartIsLogged` | internal/monitoring/recovery.go:58-91 | A restart logs a loss for every assignment it does not reload and nothing for those it does |
| `RevivalExample.RevivedVoteOpensIncident` | internal/monitoring/recovery.go:58-68 | A reachable run, for every choice of three probes and a check, in which a restart revives a vote and an incident opens in memory and store while one probe of three has two downs in a row |
| `RunTheorems.EveryQuorumIsSettled` | internal/monitoring/quorum_machine.go:137-184 | In every reachable state each quorum's state is a fixpoint of recomputation, and one more recompute is a full fixpoint |
| `RunTheorems.EveryAlertIsTruthful` | internal/monitoring/result.go:216-250 | Every down alert ever queued counts more than half of the probes down, every recovery alert less than half |
| `Alerts.EveryResultAlerts` | internal/monitoring/result.go:184-238 | For every result of every batch of every run: exactly when the flag rises over an active check without unresolved incident, one is appended and, with a webhook, one pending down alert of it, due now, with the numbers of down and of assigned probes; when it falls, the unresolved incident ends, its unfinished down alert is superseded and, with a webhook, one such recovery alert is appended; else neither table changes |
| `Alerts.EverySweepAlerts` | internal/monitoring/sweepers.go:170-188 | The same for every step of every evidence sweep |
| `Alerts.EveryIncidentIsAlerted` | internal/store/incident_notifications.go:206-262 | In every run in which a check always has a webhook, each of its incidents has its down alert and each that ended while the check is active its recovery alert; in every run in which it never has one, no notification is queued for it |
| `RunTheorems.SweepThenRestartRevives` | internal/monitoring/recovery.go:58-91 | From every state reached by a run that revived no vote on the check, expiring the probe of a vote and restarting brings the vote back with its streak, while its log ends in a loss and its streak no longer counts it |
| `CrashConsistency.CrashKeepsVotes` | internal/monitoring/recovery.go:58-120 | In every run, each vote an assignment of an active check casts in memory is cast again after a crash at that moment, with the same outcome, streak and state, for every probe that is not revoked and was seen |
| `CrashConsistency.RunKeepsBacked` | internal/monitoring/result.go:116-129 | In every reachable state each child of an active check that has an outcome agrees with its durable row |
| `Deadlines.EvidenceLastsTwoIntervals` | internal/monitoring/result.go:162-168 | After a committed result, whatever happens to other assignments, a sweep that the store answers and commits clears the evidence if and only if twice the interval (30 seconds if it is not positive) has passed since the result, and otherwise changes nothing |
| `Deadlines.DeadlineSurvivesRestart` | internal/monitoring/recovery.go:58-68 | The same deadline holds after a crash and restart, from any consistent world |
| `Deadlines.HeartbeatLasts` | internal/monitoring/sweepers.go:50-79 | After a heartbeat of a known probe, whatever else happens, an expiry takes it offline and clears its votes in every quorum if and only if the offline time has passed since, and otherwise changes nothing |
| `Deadlines.HeartbeatSurvivesRestart` | internal/monitoring/recovery.go:70-79 | The same holds of a heartbeat from before a crash, if the store knows the probe |
| `RunInvariants.RunKeepsConsistent` | internal/monitoring/runtime.go:22-26 | Every run keeps: quorums and logs are where their trails lead, children and rows are coherent, aggregates settled, tables consistent, alerts truthful |
| `MonitoringRuns.BatchIsOneTransaction` | internal/monitoring/result.go:42-65 | Committing item by item equals applying the whole batch in memory and persisting all writes at once |
| `CheckMachines.StreakTracksHistory` | internal/monitoring/check_machine.go:128-146 | The streak counter equals the longest constant suffix of the event history since the last loss, through every event |
| `CheckMachines.StreakOfTwo` | internal/monitoring/check_machine.go:141-146 | A streak of at least two of an outcome is exactly a history ending in two such events |
| `CheckMachines.CheckMachine.ObserveUp` | internal/monitoring/check_machine.go:34-36 | The whole new child state after an up result |
| `CheckMachines.CheckMachine.ObserveDown` | internal/monitoring/check_machine.go:39-41 | The whole new child state after a down result |
| `CheckMachines.CheckMachine.LoseEvidence` | internal/monitoring/check_machine.go:45-56 | The whole new child state after an evidence loss |
| `CheckMachines.CheckMachine.MarkError` | internal/monitoring/check_machine.go:59-68 | The whole new child state after unusable evidence |
| `CheckMachines.CheckMachine.Observe` | internal/monitoring/check_machine.go:72-93 | Trigger, streak, then the state overwritten from the streak |
| `CheckMachines.CheckMachine.BumpOutcome` | internal/monitoring/check_machine.go:130-137 | The streak grows on a repeated outcome and restarts at one otherwise |
| `QuorumMachines.MajoritiesExclude` | internal/monitoring/quorum_machine.go:141-162 | Up and down majorities exclude each other for every probe count and any gating |
| `QuorumMachines.GatingShrinksUpVotes` | internal/monitoring/quorum_machine.go:194-209 | An open incident can only remove up votes and never changes down votes |
| `QuorumMachines.RecomputeSettles` | internal/monitoring/quorum_machine.go:164-178 | A recompute reaches a state that recomputing keeps, though promotion changes the gating |
| `QuorumMachines.TwoRecomputesReachFixpoint` | internal/monitoring/quorum_machine.go:137-184 | A third successive recompute changes nothing |
| `QuorumMachines.NoDoubleFlip` | internal/monitoring/quorum_machine.go:167-176 | Two consecutive recomputes never both change the stable state, whatever children the second one sees |
| `QuorumMachines.FlagFollowsStableState` | internal/monitoring/quorum_machine.go:170-178 | The incident flag rises exactly on up to down and falls exactly on down to up |
| `QuorumMachines.LossRemovesVote` | internal/monitoring/quorum_machine.go:97-113 | A loss removes exactly the losing probe's vote |
| `QuorumMachines.LossIsMonotone` | internal/monitoring/quorum_machine.go:97-113 | A loss never moves a quorum into up or down from another state, and changes the last stable state exactly when the current one was stable, different and survives |
| `QuorumMachines.CountVotes` | internal/monitoring/quorum_machine.go:141-152 | The counting loop computes the sizes of the voter sets, in any map order |
| `QuorumMachines.Aggregate` | internal/monitoring/quorum_machine.go:137-162 | Votes and threshold give the tallied state |
| `QuorumMachines.QuorumMachine.Recompute` | internal/monitoring/quorum_machine.go:137-184 | The machine's recompute is the specified one |
| `QuorumMachines.QuorumMachine.AddProbe` | internal/monitoring/quorum_machine.go:44-53 | A new probe joins with an empty child and one recompute; a known one changes nothing |
| `QuorumMachines.QuorumMachine.ObserveUp` | internal/monitoring/quorum_machine.go:57-73 | One child observes, the quorum recomputes, an unknown probe changes nothing |
| `QuorumMachines.QuorumMachine.ObserveDown` | internal/monitoring/quorum_machine.go:77-93 | One child observes, the quorum recomputes, an unknown probe changes nothing |
| `QuorumMachines.QuorumMachine.LoseEvidence` | internal/monitoring/quorum_machine.go:97-113 | One child loses its evidence, the quorum recomputes |
| `QuorumMachines.QuorumMachine.Revert` | internal/monitoring/result.go:138-158 | One change is taken back: assignment or child state, and the aggregate state |
| `EvidenceTrails.OpeningHasEvidence` | internal/monitoring/quorum_machine.go:164-178 | A recompute that opens an incident has down witnesses before and after, over a stably up check |
| `EvidenceTrails.ResolutionHasEvidence` | internal/monitoring/quorum_machine.go:164-178 | A recompute that resolves one has gated up witnesses before and after |
| `EvidenceTrails.IncidentsHaveEvidence` | internal/monitoring/quorum_machine.go:137-209 | The same at every position of every trail of joins, observations and losses |
| `EvidenceTrails.RunKeepsLegal` | internal/monitoring/quorum_machine.go:44-113 | Every sequence of operations keeps streaks equal to histories and the aggregate settled |
| `Results.UndoReverts` | internal/monitoring/result.go:138-158 | Taking one item back restores the runtime exactly |
| `Results.UndoAllReverts` | internal/monitoring/result.go:138-158 | Reverse-order rollback of a whole batch restores quorum set, assignments, child and quorum states, even when it created quorums and hit the same check and probe repeatedly |
| `Results.WriteFollowsFlag` | internal/monitoring/result.go:184-212 | An open (resolve) write is produced exactly when the incident flag rises (falls), though a first result recomputes twice |
| `Results.LossWriteFollowsFlag` | internal/monitoring/sweepers.go:169-185 | The same for an evidence loss |
| `Results.ReportAlertsOk` | internal/monitoring/result.go:216-250 | The alert of a result counts a true majority by state, though votes are counted by outcome and streak |
| `Results.LossAlertsOk` | internal/monitoring/sweepers.go:169-185 | The same for an evidence loss |
| `Results.FirstResultCastsNoVote` | internal/monitoring/quorum_machine.go:194-209 | A probe's first result cannot cast a gated vote |
| `Runtimes.Report` | internal/monitoring/result.go:76-115 | One result on a quorum: join if new, observe; returns the child as it was |
| `Runtimes.IncidentOf` | internal/monitoring/result.go:184-212 | The incident side effect of a stable transition |
| `Runtimes.RequestOf` | internal/monitoring/result.go:216-238 | The alert request: none exactly without a webhook, else with the number of children down and of all |
| `Runtimes.CountDown` | internal/monitoring/result.go:242-250 | The counting loop gives the number of children in state down |
| `Runtimes.Runtime.EnsureQuorum` | internal/monitoring/result.go:173-182 | Creates an empty quorum on demand and touches no other |
| `Runtimes.Runtime.ApplyObservedResult` | internal/monitoring/result.go:76-136 | One item on the runtime, with its write and rollback record; an unknown probe changes nothing |
| `Runtimes.Runtime.RollbackObservedResults` | internal/monitoring/result.go:138-158 | The reverse loop is the specified undo |
| `Runtimes.Runtime.ApplyItemsInOrder` | internal/monitoring/result.go:42-57 | Applies all items in order with all rollback records, or takes back everything at the first unknown probe |
| `Servers.IngestResults` | internal/monitoring/result.go:42-65 | A batch is all or nothing in memory and store together; it succeeds exactly when every probe is known, every row is accepted and the commit succeeds |
| `Servers.BatchWritesAreValid` | internal/store/monitoring.go:179-192 | From a reachable state no write of a batch is refused by the store's validation |
| `Servers.ResultBatchStep` | internal/monitoring/result.go:28-65 | The program's batch is one step of the run model |
| `Servers.SweepEvidenceStep` | internal/monitoring/sweepers.go:126-196 | The program's locked sweep section, with its commit, is one step of the run model |
| `Servers.HeartbeatStep` | internal/monitoring/heartbeat.go:31-58 | The program's heartbeat, with its durable timestamp, is one step of the run model; it succeeds exactly for a known probe and a committed write |
| `Servers.ExpireProbeStep` | internal/monitoring/sweepers.go:50-79 | The program's locked probe sweep section is one step of the run model and leaves the store alone |
| `Servers.EnsureCheckStep` | internal/monitoring/runtime.go:95-100 | Creating a check's quorum is one step of the run model |
| `Servers.DeleteCheckStep` | internal/monitoring/runtime.go:127-132 | Deleting a check in the store and then in memory is two steps of the run model |
| `Servers.AddProbeStep` | internal/monitoring/runtime.go:105-123 | Adding a probe is one step of the run model |
| `Servers.RestartStep` | internal/monitoring/recovery.go:21-107 | Start-up after a crash is one step of the run model, for every listing order |
| `Runtimes.Runtime.RemoveCheck` | internal/monitoring/runtime.go:127-132 | Drops one quorum and touches no other |
| `Runtimes.Runtime.AddProbe` | internal/monitoring/runtime.go:112-123 | Adds an offline probe unless the ID is empty or known |
| `Runtimes.ProbeMachine.ReceiveHeartbeat` | internal/monitoring/probe_machine.go:31-41 | The whole new probe state after a heartbeat |
| `Runtimes.ProbeMachine.ExpireHeartbeat` | internal/monitoring/probe_machine.go:45-47 | The whole new probe state after an expiry |
| `Runtimes.Runtime.ApplyHeartbeat` | internal/monitoring/heartbeat.go:31-58 | A heartbeat is applied, or on a failed persist the probe is exactly as before |
| `Runtimes.Runtime.ApplyProbeDegradation` | internal/monitoring/heartbeat.go:62-81 | Every assigned child of the probe loses its evidence, in any quorum order |
| `Runtimes.Runtime.ExpireIfStale` | internal/monitoring/sweepers.go:50-79 | One probe of a sweep under the lock: it expires exactly if it is not offline and its last heartbeat is at least the offline time ago |
| `Runtimes.Runtime.SweepStaleProbes` | internal/monitoring/sweepers.go:28-81 | In any order, with anything happening while the lock is free: the count is that of the probes that were silent for the offline time when reached, each expired under its own lock, each once, and each known when the sweep began; without interference this is the sweep of these probes and none is left silent that long; a non-positive timeout is an error that changes nothing |
| `Sweepers.ProbeSweepOnlyPromotes` | internal/monitoring/sweepers.go:50-79 | A whole probe sweep of any number of probes changes the last stable state or flag only of quorums that were stable and different when it began, and only to that state |
| `Sweepers.ExpiryStepOnlyPromotes` | internal/monitoring/sweepers.go:50-79 | The same for each locked step of a sweep, whatever interfered before it |
| `Runtimes.LoseOrRestore` | internal/monitoring/sweepers.go:146-193 | Clears a child and produces its write, or restores child and quorum on a failed lookup or persist |
| `Runtimes.Runtime.SweepLocked` | internal/monitoring/sweepers.go:126-196 | One assignment of an evidence sweep under the lock, with all its early exits: it is expired, or that fails, exactly if it is known, has no error, and its deadline is set and not after now |
| `Runtimes.Runtime.StaleAssignments` | internal/monitoring/sweepers.go:96-116 | The nested snapshot loop finds exactly the assignments whose deadline has passed, in any map order |
| `Runtimes.Runtime.SweepStaleEvidence` | internal/monitoring/sweepers.go:86-199 | With anything happening while the lock is free: each locked section is one sweep step, which expires its assignment, or fails to, exactly if the deadline has passed; steps are taken for assignments whose deadline had passed when the sweep began, each once, and all of them unless an error stops it; the runtime is left as the last step left it, the first error ends the sweep and is reported, and the count is the number of committed expiries. Without interference each step starts where the one before it ended and, without error, no passed deadline is left |
| `Sweepers.SweepSparesFreshEvidence` | internal/monitoring/sweepers.go:137-193 | Whatever happened before the lock, a sweep step changes no child whose deadline is still ahead, at most the one it was sent for, and nothing unless it commits |
| `Sweepers.SweepShrinksWork` | internal/monitoring/sweepers.go:124-198 | A committed or skipped assignment has no deadline that has passed any more, and no other comes to have one |
| `Recovery.RecoveryIsSilent` | internal/monitoring/recovery.go:93-104 | Whatever votes were persisted, the final recompute opens, resolves and promotes nothing: the flag and last stable state are what the store said |
| `Recovery.RowRoundTrip` | internal/store/monitoring.go:303-323 | A persisted coherent child is accepted and reloads with the same outcome, streak and state; its last-result time survives exactly when it was not the zero time, and its vote exactly unless the row got its time from the clock only and the child has an up outcome that passes the gate |
| `Recovery.LostRowRoundTrip` | internal/monitoring/sweepers.go:155-168 | A row written after a loss reloads as a non-vote that a later loss only clears again |
| `RuntimeLoading.UniqueIds` | internal/monitoring/runtime.go:299-315 | Exactly the non-empty IDs, each once, in first-seen order |
| `RuntimeLoading.NewRuntime` | internal/monitoring/runtime.go:31-49 | Exactly the listed checks pending and the listed probes offline |
| `RuntimeLoading.LoadRows` | internal/monitoring/recovery.go:58-68 | The children are those of the rows of known checks and probes, for any row order |
| `RuntimeLoading.MarkAllSeen` | internal/monitoring/recovery.go:70-79 | Exactly the probes with a last-seen time are online |
| `RuntimeLoading.DegradeUnseen` | internal/monitoring/recovery.go:81-91 | Exactly the probes never seen lose their votes, in any map order |
| `RuntimeLoading.StartAllOver` | internal/monitoring/recovery.go:93-104 | Every quorum restarts from the store's incident and its children, in any map order |
| `RuntimeLoading.LoadRuntime` | internal/monitoring/recovery.go:21-107 | Confluence: for every order of every listing and map the result is one function of the store |
| `StoreTransactions.Store.UpsertCheckState` | internal/store/monitoring.go:273-301 | A row is accepted exactly if it names check and probe and has an outcome or the missing state; an accepted one replaces the assignment's row only, a refused one changes nothing |
| `StoreTransactions.Store.InsertNotification` | internal/store/incident_notifications.go:47-60 | Nothing without a request or on a duplicate incident and event, else one pending row |
| `StoreTransactions.Store.OpenIncident` | internal/store/incident_notifications.go:206-228 | Conflicts exactly when the check is gone or has an unresolved incident, and then changes nothing; else one incident, and one pending down alert of it if one is asked for |
| `StoreTransactions.Store.ResolveIncident` | internal/store/incident_notifications.go:230-262 | Finds the unresolved incident if there is one, resolves it, supersedes its down alert, queues the recovery |
| `StoreTransactions.Store.PersistMonitoringBatch` | internal/store/monitoring.go:179-271 | Every write in order or none, whether a row is refused up front or the commit fails |
| `StoreTransactions.Store.UpdateHeartbeat` | internal/store/probes.go:215-226 | Stamps a probe that is not revoked and adds none |
| `StoreTransactions.Store.DeleteCheck` | internal/store/store.go:294-360 | Supersede, resolve, drop rows and soft-delete in place give the specified tables, with no row of the check and none of its notifications unfinished, or on a failed commit none of it |
| `NotificationLifecycle.DeletionFinishes` | internal/store/store.go:319-347 | Deleting an active check leaves no state row of it, resolves its unresolved incident, supersedes all its unfinished notifications, of both events and of earlier incidents too, and changes no row, incident or notification of any other check |
| `NotificationLifecycle.RunKeepsGone` | internal/store/store.go:319-347 | Over every interleaving of transactions, a check that is not active has no unfinished notification |
| `StoreRuns.DeletedChecksAreFinished` | internal/store/store.go:319-347 | So in every run of the server |
| `StoreRuns.RunIsTransactions` | internal/store/monitoring.go:179-224 | The tables after every run of the server are those after some sequence of transactions, so every result about interleavings holds of runs |
| `StoreTransactions.Store.PickDue` | internal/store/incident_notifications.go:70-83 | A claim takes free due rows in order of next attempt and ID, none twice, and passes over one only after taking the full limit of earlier ones |
| `StoreTransactions.Store.ClaimDue` | internal/store/incident_notifications.go:64-109 | Exactly the picked rows become processing with one more attempt; jobs carry the new attempt count |
| `StoreTransactions.Store.MarkDelivered` | internal/store/incident_notifications.go:113-125 | A processing row becomes delivered at that time, and only such a row |
| `StoreTransactions.Store.MarkRetry` | internal/store/incident_notifications.go:129-161 | Retry later, except that a superseded row stays so and a down alert of a resolved incident becomes superseded |
| `NotificationLifecycle.StepKeepsOk` | internal/store/migrations/000001_init.up.sql:64-94 | Every transaction keeps at most one unresolved incident per check, one row per incident and event, no next attempt exactly in the terminal states, and finished down alerts of resolved incidents |
| `NotificationLifecycle.LifecycleOfRun` | internal/store/incident_notifications.go:64-161 | Over all interleavings of workers, resolution and deletion: delivered and superseded absorb, and a resolved incident's down alert is terminal ever after |
| `NotificationLifecycle.TerminalIsNeverDue` | internal/store/incident_notifications.go:69-83 | A terminal row is never claimed |
| `NotificationLifecycle.UnfinishedIsDue` | internal/store/incident_notifications.go:69-83 | An unfinished row is due at all times from the later of its next attempt and the end of its lease |
| `NotificationLifecycle.ClaimsAreExclusive` | internal/store/incident_notifications.go:69-94 | After a claim no interleaving makes the row due again within the lease, short of a report on it |
| `NotificationLifecycle.WaitIsHonoured` | internal/store/incident_notifications.go:69-83 | Over all interleavings without a report on it, a row that waits until a time is not due before it |
| `Senders.RetryDelay` | internal/alert/sender.go:160-169 | Between one second and five minutes for every attempt count |
| `Senders.RetryDelayDoubles` | internal/alert/sender.go:160-169 | One second at first, then exactly doubling up to the cap |
| `Senders.RetryDelayGrows` | internal/alert/sender.go:160-169 | Never shorter for a later attempt |
| `Senders.NoStrandedWork` | internal/alert/sender.go:114-158 | After every clocked run, whatever workers died in it, every unfinished notification is due once five minutes and the lease have passed since the last transaction |
| `Senders.ReportIsAt` | internal/alert/sender.go:140-158 | A report is at most one transaction, on its own row, a delivery exactly for an accepted send and otherwise a retry that waits within bounds |
| `Senders.ReportSettles` | internal/alert/sender.go:140-158 | On the tables, whatever they are: an accepted send makes a processing row delivered at that time, a failed one makes it wait for the backoff of its attempts, or supersedes it if it is a down alert of an ended incident; a superseded row stays so, and no other row changes |
| `Senders.Sender.Dispatch` | internal/alert/sender.go:140-158 | The report of one attempt, which settles its row that way, or nothing when the report is lost |
| `Senders.Sender.DispatchJobs` | internal/alert/sender.go:129-137 | Jobs are reported in order until the sender stops, with others committing in between |
| `Senders.BatchSettles` | internal/alert/sender.go:129-137 | Every dispatched job of a batch settles its row so, wherever it stands and whatever others commit in between that does not concern the row |
| `Senders.Sender.RunBatch` | internal/alert/sender.go:114-138 | A batch is exactly one fair claim followed by one report per dispatched job; each dispatched row that other transactions leave alone has one more attempt and is delivered, waits for its backoff, or is still processing if its report was lost; idle, processed and stopped are told apart exactly |
| `ResultBatching.EnqueueConserves` | cmd/wacht-probe/result_batcher.go:64-81 | Accepting a result keeps conservation and order |
| `ResultBatching.TrimConserves` | cmd/wacht-probe/result_batcher.go:201-209 | Dropping the oldest pending results keeps conservation and order |
| `ResultBatching.RefuseConserves` | cmd/wacht-probe/result_batcher.go:136-148 | Dropping the batch in flight keeps conservation and order |
| `ResultBatching.MovesConserve` | cmd/wacht-probe/result_batcher.go:159-186 | Taking, requeueing and posting keep conservation and order |
| `ResultBatching.NothingLost` | cmd/wacht-probe/result_batcher.go:115-125 | If nothing was dropped and nothing waits, every accepted result was posted exactly once, in order |
| `ResultBatching.ResultBatcher.constructor` | cmd/wacht-probe/result_batcher.go:39-62 | A batch of 64 by default, and sixteen batches of pending results, or one where 64-bit multiplication overflows below that |
| `ResultBatching.ResultBatcher.Enqueue` | cmd/wacht-probe/result_batcher.go:64-81 | Refused when closed; otherwise appended, dropping exactly the oldest one when full, and a full batch is signalled |
| `ResultBatching.ResultBatcher.TakeBatch` | cmd/wacht-probe/result_batcher.go:159-175 | The oldest results up to the batch size, and what is left |
| `ResultBatching.ResultBatcher.Requeue` | cmd/wacht-probe/result_batcher.go:177-186 | The failed batch goes back in front, trimmed from the oldest |
| `ResultBatching.ResultBatcher.TrimPending` | cmd/wacht-probe/result_batcher.go:201-209 | Drops exactly the oldest beyond the bound |
| `ResultBatching.ResultBatcher.Settle` | cmd/wacht-probe/result_batcher.go:133-156 | The outcome decides: posted, dropped or requeued; a full batch left is signalled |
| `ResultBatching.ResultBatcher.FlushOne` | cmd/wacht-probe/result_batcher.go:127-157 | With arbitrary arrivals and closing meanwhile, conservation, order and bound hold afterwards; the batch is posted whole, dropped whole, or back in front of what was left and what came meanwhile, trimmed from the oldest |
| `ResultBatching.ResultBatcher.FlushForShutdown` | cmd/wacht-probe/result_batcher.go:115-125 | Ends, and if every post is accepted leaves nothing pending and everything posted in order |
| `Schedulers.LastEntryWins` | cmd/wacht-probe/scheduler.go:50-53 | The desired map holds the last entry of every listed ID |
| `Schedulers.WinnerIsLast` | cmd/wacht-probe/scheduler.go:50-53 | And nothing else |
| `Schedulers.Scheduler.Desired` | cmd/wacht-probe/scheduler.go:50-53 | The loop builds that map |
| `Schedulers.Scheduler.SettleRunning` | cmd/wacht-probe/scheduler.go:58-70 | In any map order running checks that are gone or changed lose their worker and the missing ones are left |
| `Schedulers.Scheduler.StartMissing` | cmd/wacht-probe/scheduler.go:72-74 | In any map order each missing check gets one new worker and no other is touched |
| `Schedulers.Scheduler.Reconcile` | cmd/wacht-probe/scheduler.go:49-75 | Live workers are exactly the running entries, one per ID; running equals the last-wins map; unchanged checks keep their worker; the old workers cancelled are exactly the removed or changed, the new ones exactly one per added or changed check |
| `Schedulers.Scheduler.Close` | cmd/wacht-probe/scheduler.go:78-86 | No worker is left alive or running |
| `DnsMessages.ParsedIsEncoded` | cmd/wacht-mock/dns_target.go:267-289 | What parses is, byte for byte, an encoded name ending at the returned offset within bounds |
| `DnsMessages.EncodedParses` | cmd/wacht-mock/dns_target.go:267-289 | Every encoded name parses back to its labels, whatever surrounds it |
| `DnsMessages.NameIsLocal` | cmd/wacht-mock/dns_target.go:267-289 | A parsed name depends on no byte at or after the returned offset |
| `DnsMessages.ParseDnsName` | cmd/wacht-mock/dns_target.go:267-289 | The index loop terminates within bounds and computes the parse, with all errors |
| `DnsMessages.ParseDnsQuestion` | cmd/wacht-mock/dns_target.go:234-262 | The question or the first error, as specified |
| `DnsMessages.QueryParses` | cmd/wacht-mock/dns_target.go:234-262 | Every message with one question parses to its own id, flags, name, type, class and question bytes, whatever follows |
| `DnsMessages.ParsedIsQuery` | cmd/wacht-mock/dns_target.go:234-262 | Nothing else parses |
| `DnsMessages.FlagsOfResponse` | cmd/wacht-mock/dns_target.go:294-295 | QR and RA set, opcode and RD kept, the response code in place, everything else clear, for codes below 16 |
| `DnsMessages.LargeCodeSpills` | cmd/wacht-mock/dns_target.go:294-295 | The response code is readable exactly when it is below 16 |
| `DnsMessages.BuildDnsResponse` | cmd/wacht-mock/dns_target.go:294-311 | The filled buffer is header, question and answer |
| `DnsMessages.EchoRoundTrip` | cmd/wacht-mock/dns_target.go:234-311 | For every query that parses, every code and answer, the response parses to the same ID, name, type, class and question bytes |
| `DnsMessages.BuildARecord` | cmd/wacht-mock/dns_target.go:315-325 | The filled buffer is the record |
| `DnsMessages.AnswerPointsAtName` | cmd/wacht-mock/dns_target.go:315-325 | The message has the query's id, one question and one answer; the record's compression pointer leads to the echoed name, and type, class, a lifetime of one second, length and address read back |
| `DnsMessages.HandleMessage` | cmd/wacht-mock/dns_target.go:204-222 | Other names are forwarded unchanged; the fixture's response parses back to the question, NXDOMAIN exactly when down, one answer exactly when up and asked for an address |
| `RateLimiting.RateLimiter.constructor` | internal/server/auth.go:133-145 | Non-positive settings become ten calls and one minute |
| `RateLimiting.RateLimiter.Allow` | internal/server/auth.go:147-160 | The decision and the whole new table; other keys' buckets are untouched |
| `RateLimiting.RateLimiter.Serve` | internal/server/auth.go:147-160 | A run of calls admits what the specification says |
| `RateLimiting.KeysAreIndependent` | internal/server/auth.go:147-160 | What a key gets in any run is what it would get alone |
| `RateLimiting.RateIsBounded` | internal/server/auth.go:147-160 | For every key and every run with a clock that never goes back, each closed interval of one window holds fewer than twice the limit of admitted requests |
| `RateLimiting.BoundIsReached` | internal/server/auth.go:147-160 | For every limit and window some run admits one less than twice the limit within one window, so the bound is exact |
| `RateLimiting.RefusalHasCause` | internal/server/auth.go:147-160 | In every run with a clock that never goes back, a refused key had its full limit admitted within the last window |
| `RateLimiting.BucketIsBounded` | internal/server/auth.go:147-160 | Each bucket admits at most the limit |

## Left out

- HTTP handlers, routing, authentication, sessions, signup, configuration, the web UI and logging.
- SQL text, isolation levels, timestamp precision and 32-bit columns: a transaction is one atomic step on maps and sequences, the unique indexes are proved or kept as invariants, and row locks of other claims are a parameter.
- Outbound checks, network policy, sockets, the DNS proxy and the TCP framing of DNS messages.
- `MarkProbeError`, `MarkCheckError` and the direct observe and expire entry points as steps of a run: only tests call them. The error state stays in the data and in the child machine.
- LastError texts, transition records, snapshots, trimming of IDs, and the failure of payload rendering, which is total here.
- The sorted order of sweeps: proved for any order.
- Sessions of the batcher's goroutine loop and of its ticker: each flush is modelled with whatever arrives meanwhile, the endless select loop is not.
- The sender's poll loop, and start and stop of its workers: one batch of one worker is modelled, with the transactions of all others in between.
- Unicode lowercasing of DNS labels and name normalisation: they are parameters, so the results hold for any such functions.
- HeartbeatStep: a heartbeat at the zero time is stored as given, while the store would substitute the current time.
- ClaimDue: returns the jobs in claim order, which the statement that claims them does not promise; a batch may be dispatched in another order.
