# OpenClaw operator: a verified model of its three cores

The OpenClaw operator manages agent instances on Kubernetes. This project models, in Dafny, the three parts of it
whose correctness does not show from reading one function, and proves what they do over all inputs and all runs:

1. **The update, backup and deletion lifecycle** — one `Reconcile` with its early returns, the update state machine
   with pre-update backup, health check and rollback, deletion with a final backup, and runs that interleave
   reconciles with pods, Jobs, readiness reports, the registry, the clock, suspension, edits, failing API calls and
   process stops.
2. **The configuration algebra** — the deep merge and forced-path deletion that run at container start, the Go deep
   merge, the nine-step enrichment pipeline, and self-configuration requests.
3. **Convergence of files on the data volume** — the skill-pack manifest sync and the `_ocw_apply` marker protocol as
   small programs over a file system, and the key encodings and quoting that tie the ConfigMap to the init script.

## Layout

| files | contents |
|---|---|
| `Wrappers`, `Semver`, `Rclone`, `Cluster` | optional values, version precedence, backup Jobs, persisted objects and API calls |
| `AutoUpdate`, `Deletion`, `Lifecycle` | the controller functions as transitions of a world, and runs |
| `Reconciler` | the controller as it is written, a class that assigns fields and returns early; every method is proved to take the transition of its namesake |
| `DeletionFrame`, `Resilience` | invariants under every failure: circuit breaker, lost backup path, single deletion path |
| `UpdateSafety`, `StopSafety`, `UpdateTheorems` | the invariants of error-free runs and of runs that stop anywhere, their consequences, and what breaks them |
| `Freshness`, `DeletionDeadline` | no version returns; deletion ends in time and for a reason |
| `Outcomes`, `DeletionOutcomes`, `Evidence` | the whole state after each kind of reconcile; what no reconcile does without cause |
| `OwnerReferences` | the in-place filter of owner references |
| `ConfigMerge`, `ConfigStart`, `Enrichment`, `EnrichedPaths`, `ConfigExtension`, `SelfConfig` | the configuration algebra, and the config through pod and container starts |
| `SkillPackSync`, `SkillPackScript`, `SkillPackHistory`, `SkillPackDirs` | skill-pack synchronisation: commands, the script as loops, histories, directories |
| `ManagedFiles`, `Keys`, `ShellQuote`, `WorkspaceSeeds` | marker protocol, encodings, quoting, ConfigMap against script |

## How runs are modelled

A reconcile works on a `World`: the API server's state, the controller's own copy of the instance, and a `Fate` that
says of every API call still to come whether it succeeds, returns an error, or never takes place because the process
has stopped. A controller function is a function from worlds to worlds. A run is any sequence of events; one whose
guard fails does not happen. An *error-free* run is one in which every call succeeds and only the controller edits the
tag; in a run *without errors* reconciles may also stop at any call. In both, options stay fixed while an update is
pending; every other statement about "every run" allows any edit at any time. Runs are unbounded, and statements about
them hold for every length. The history of Kubernetes Events is part of the state, so "the tag set when the update
became pending" is a fact about the run and not about a status field.

## Findings

Where the code departs from its comments, the model follows the code, and a lemma says exactly what happens.

- The remote path of a pre-update backup is read from the wrong argument, so it is empty in every reachable state and
  a rollback never restores the volume (`Rclone.RecordedPathIsEmpty`, `Resilience.BackupPathIsNeverRecorded`).
- The health check looks at the old pod template, unless the instance is suspended and reconciled in between
  (`UpdateTheorems.TemplateDuringUpdate`).
- A stop between the tag patch and the status write of the health check, and nothing else, makes the new version its
  own predecessor (`StopSafety.PreviousVersionExactly`, `UpdateTheorems.StopAfterPatchStrands`).
- Any error a backup step meets before its status write, that write too if no HPA is there, and a Secret made
  unreadable, start the workload beside the running backup (`UpdateTheorems.ErrorStartsWorkload`,
  `LosingCredentialsStartsWorkload`); stops do not (`StopSafety.NothingRunsDuringBackup`).
- A completed backup Job left from an earlier update counts for the next one (`UpdateTheorems.AnyCompletedJobCounts`).
- Under an HPA a resumed instance stays at zero replicas (`UpdateTheorems.ResumeWakesUnlessHpa`).
- An error or a stop at the finalizer update of a timed-out deletion makes the operator forget the deadline; the
  deletion then does not end for as long as a failed backup Job is there (`DeletionDeadline.DeadlineIsLostExactly`,
  `StuckForever`).
- A forced path that names an array element leaves null instead of removing it (`ConfigMerge.ForcedPathsThroughArrays`).
- An environment variable assigned twice in one request flips from the first to the second value when the request is
  repeated (`SelfConfig.RepeatedNameFlips`).
- Pruning that is interrupted between two directories leaves the upper one for ever, and an abandoned revision leaves
  its files (`SkillPackDirs.DirectoriesConvergeExactly`, `SkillPackHistory.AbandonedRevisionLeavesFiles`).
- A copy that fails over an existing managed file is never retried (`ManagedFiles.FailedCopyIsForgotten`).
- The marker of `ws-<name>/<file>` in the default workspace is that of `<file>` in workspace `<name>`, although
  markers are described as unable to collide (`Keys.MarkersCollideExactly`).

## Model

| member | source | states |
|---|---|---|
| `Semver.PrecedenceIsTotalOrder` | internal/registry/resolver.go:89-98 | the precedence of section 11 of Semantic Versioning 2.0.0, which the comparison relies on, is a strict total order, pre-releases included |
| `Semver.BelowByRule` | internal/registry/resolver.go:89-98 | one version is below another exactly by the rules of section 11 of Semantic Versioning 2.0.0 on its fields: major, minor, patch in this order, a pre-release before its release, the first differing identifier, numbers by value and before text, a proper prefix first |
| `Semver.LatestSemver` | internal/registry/resolver.go:78-104 | the selection loop answers a released, admitted tag whose major, minor and patch no other such tag exceeds, the first of equals, and fails exactly if there is none |
| `Semver.NewestIsAnswer` | internal/registry/resolver.go:78-104 | the first of the newest released tags, wherever it stands in the list, is what the loop answers |
| `Semver.AppendOnlyAnswersAscend` | internal/registry/resolver.go:78-104 | a registry that only gains tags never answers lower, and gives an equal version under the same tag |
| `Rclone.IsJobFinished` | internal/controller/s3.go:342-349 | the first deciding condition, and only that, is the verdict on a Job; unfinished means no condition decides |
| `Rclone.ParseSecret` | internal/controller/s3.go:85-144 | bucket and endpoint are mandatory, the two keys come together or not at all; without them the environment authenticates |
| `Rclone.ArgumentsOfJob` | internal/controller/s3.go:207-230 | every argument of a Job by position: direction, provider, endpoint, the authentication the credentials ask for, the fixed flags, and the region exactly if there is one |
| `Rclone.RemotePathRoundTrip` | internal/controller/s3.go:207-225 | reading the remote argument where a Job has it and stripping the bucket returns the path, for all buckets and paths |
| `Rclone.RecordedPathIsEmpty` | internal/controller/autoupdate.go:613-636 | the index the code uses loses the path for every non-empty bucket |
| `Cluster.Clamp` | internal/controller/backup.go:267-282 | a duration field is kept inside its bounds, becomes the bound it exceeds, and is defaulted if empty or malformed; 5 minutes to 24 hours for backups |
| `Reconciler.InstanceReconciler.Abort` | internal/controller/autoupdate.go:759-791 | takes the abort transition, error paths included: clears the pending version, writes the status, scales up from zero |
| `Reconciler.InstanceReconciler.PreUpdateBackupStep` | internal/controller/autoupdate.go:658-756 | scale down, wait for pods, credentials, mirror Secret, Job: the pre-update backup transition, call by call |
| `Reconciler.InstanceReconciler.RecordPath` | internal/controller/autoupdate.go:613-636 | records what the Job arguments give at the index the code uses |
| `Reconciler.InstanceReconciler.ApplyStep` | internal/controller/autoupdate.go:280-362 | save the previous tag, write, patch, scale up, enter the health check or finish: the apply transition with its aborts |
| `Reconciler.InstanceReconciler.HealthCheckStep` | internal/controller/autoupdate.go:366-438 | confirm, wait or start a rollback: the health-check transition, which Outcomes.HealthCheckOutcome and Evidence.ConfirmedOnlyIfReady pin |
| `Reconciler.InstanceReconciler.RollbackStep` | internal/controller/autoupdate.go:442-508 | restore if a path is known, revert the tag, count the rollback: the rollback transition |
| `Reconciler.InstanceReconciler.RestoreStep` | internal/controller/autoupdate.go:512-604 | the restore transition that would precede a rollback |
| `Reconciler.InstanceReconciler.UpdateStep` | internal/controller/autoupdate.go:233-278 | dispatch of the update state machine |
| `Reconciler.InstanceReconciler.AutoUpdateStep` | internal/controller/autoupdate.go:100-216 | pending first, then the guards, the circuit breaker, the interval and the version check, whose outcome Outcomes.AnnouncedExactly pins |
| `Reconciler.InstanceReconciler.ResolveTagStep` | internal/controller/autoupdate.go:55-96 | the tag "latest" is resolved once, before provisioning |
| `Reconciler.InstanceReconciler.DeleteStep` | internal/controller/backup.go:53-110 | skip, start the clock, check the deadline: the first half of the deletion transition |
| `Reconciler.InstanceReconciler.QuiesceStep` | internal/controller/backup.go:112-165 | scale down and wait for pods before a deletion backup, as Evidence.DeletionJobStartsUndisturbed demands |
| `Reconciler.InstanceReconciler.DeletionBackupStep` | internal/controller/backup.go:167-262 | credentials, Job, verdict and end of a deletion backup |
| `Reconciler.InstanceReconciler.DropFinalizer` | internal/controller/backup.go:287-314 | removes the finalizer, or fails and keeps it |
| `Reconciler.InstanceReconciler.WriteResources` | internal/controller/openclawinstance_controller.go:1348-1496 | template and replicas of the StatefulSet as reconcileStatefulSet leaves them, between the steps around it |
| `Reconciler.InstanceReconciler.RestStep` | internal/controller/openclawinstance_controller.go:198-345 | resources, failed and suspended exits, observed phase, version check, conditional status write and requeue delay |
| `Reconciler.InstanceReconciler.ProvisionedStep` | internal/controller/openclawinstance_controller.go:181-196 | a pending update comes first and keeps the resources from being reconciled while it asks to be requeued |
| `Reconciler.InstanceReconciler.ReconcileOnce` | internal/controller/openclawinstance_controller.go:119-346 | one whole Reconcile, every early return included, is the transition all theorems are about |
| `Reconciler.InstanceReconciler.ReconcileInstance` | internal/controller/openclawinstance_controller.go:119-346 | one Reconcile on a fresh copy, whatever its calls do: keeps the invariant of the circuit breaker and the single deletion path, lets a deleted instance go only for a reason, and leaves the tag alone once the breaker is open |
| `Reconciler.Operate` | internal/controller/openclawinstance_controller.go:119-346 | the operator as a loop over events, a controller for each reconcile: computes the run, with its rollback count bounded, no backup path recorded, no restore Job, and mutual exclusion wherever its conditions hold |
| `Resilience.CircuitBreaker` | internal/controller/autoupdate.go:104-121 | in every run, whatever fails and whatever is edited: RollbackCount stays within 0 and 3, and a pending version implies it is below 3 |
| `Resilience.BreakerEndsUpdates` | internal/controller/autoupdate.go:117-121 | in every run, once the count is 3 with nothing pending, no later reconcile changes the tag |
| `Resilience.BackupPathIsNeverRecorded` | internal/controller/autoupdate.go:451-463 | in every run PreUpdateBackupPath is empty and the rollback-restore Job is never created |
| `Resilience.DeletionUsesOnePath` | internal/controller/backup.go:184-262 | in every run all deletion-backup Jobs, past and present, go to the one remote path that was settled first |
| `UpdateSafety.RunKeeps` | internal/controller/autoupdate.go:100-508 | every error-free run keeps the invariant that tag, pending version, previous version, phase, history and pod template tell one story |
| `UpdateTheorems.TagMatchesPhase` | internal/controller/autoupdate.go:281-297 | in every error-free run, health check or rollback implies that the tag is the pending version and the previous version is the tag of the announcement and strictly lower |
| `UpdateTheorems.HistoryIsLawful` | internal/controller/autoupdate.go:442-485 | in every error-free run each rollback restored the tag of its announcement and no update was aborted for want of a previous version |
| `UpdateTheorems.RollbackRestoresTag` | internal/controller/autoupdate.go:466-508 | the rollback step of any error-free run gives back exactly the tag from before the update and records the failed version |
| `StopSafety.NothingRunsDuringBackup` | internal/controller/autoupdate.go:672-743 | mutual exclusion in every run without returned errors, stopped at any call, suspended and resumed at will: an unfinished backup Job means zero replicas and no pods, as long as the Secret is not made unreadable under it |
| `UpdateTheorems.BackupExitScalesUp` | internal/controller/autoupdate.go:299-315 | in every error-free run each exit from the backup phase leaves a StatefulSet with nonzero replicas |
| `UpdateTheorems.ConfirmedOnOldTemplate` | internal/controller/openclawinstance_controller.go:183-198 | an instance that is never suspended has every update confirmed on the pre-update template |
| `UpdateTheorems.TemplateDuringUpdate` | internal/controller/openclawinstance_controller.go:183-198 | in every error-free run with an update pending, at its confirmation too, the template is the new one if and only if the suspended instance was reconciled since the tag was patched, else the old one |
| `StopSafety.PreviousVersionExactly` | internal/controller/autoupdate.go:281-328 | wherever reconciles stop: during health check and rollback the previous version is the announced tag, or the pending version itself if and only if a reconcile stopped between the tag patch and the status write of the health check |
| `UpdateTheorems.StopAfterPatchStrands` | internal/controller/autoupdate.go:293-328 | a stop right after the patch, with or without a backup before it, makes the new version its own predecessor |
| `UpdateTheorems.ErrorStartsWorkload` | internal/controller/autoupdate.go:258-279 | a single error at any call of a backup step starts the workload beside the running Job if and only if it hits a call before the status write of the step, or that write without an HPA |
| `UpdateTheorems.LosingCredentialsStartsWorkload` | internal/controller/autoupdate.go:776-788 | a Secret made unreadable during a backup, in any way, aborts the update and scales up while the Job runs: the condition of mutual exclusion is needed |
| `UpdateTheorems.AnyCompletedJobCounts` | internal/controller/autoupdate.go:718-756 | the tag moves exactly if a completed Job of the fixed name exists, of this update or not |
| `UpdateTheorems.ResumeWakesUnlessHpa` | internal/controller/openclawinstance_controller.go:1422-1429 | a resumed workload wakes up if and only if no HPA manages it |
| `Outcomes.AnnouncedExactly` | internal/controller/autoupdate.go:100-216 | for every active instance with a check due and an answer of the registry: the answer becomes pending and is announced if and only if the tag precedes it by the rules of section 11 and it is not the version that failed; otherwise nothing is pending and nothing announced |
| `Outcomes.CheckOutcome` | internal/controller/autoupdate.go:100-216 | the whole state and the requeue after such a check, the forgotten failure included |
| `Outcomes.NotDueOutcome` | internal/controller/autoupdate.go:108-126 | switched off, pinned to a digest, without resolver, with the breaker open or inside the interval of 3600 to 604800 seconds, a reconcile only provides the workload |
| `Outcomes.NoAnswerOutcome` | internal/controller/autoupdate.go:128-140 | a registry that is down or has no released tag costs the check its time and nothing else |
| `Outcomes.LatestOutcome` | internal/controller/autoupdate.go:148-161 | a tag that names no version is patched to the answer and requeued at once |
| `Outcomes.HealthCheckOutcome` | internal/controller/autoupdate.go:366-438 | the whole state after a health check: confirmed if ready and updated pods are there, else rolling back if the timeout of 120 to 1800 seconds has been reached, else waiting |
| `Outcomes.ConfirmedIfReady` | internal/controller/autoupdate.go:381-437 | an update is confirmed if and only if pods are ready and updated, and its rollback begins if and only if they are not and the timeout has been reached since the recorded start |
| `Outcomes.HealthCheckWaits` | internal/controller/autoupdate.go:370-378 | without a StatefulSet a health check waits and changes nothing |
| `Evidence.ConfirmedOnlyIfReady` | internal/controller/autoupdate.go:381-403 | in every state, for every event and every fate: a confirmation enters the history only by a reconcile that finds ready and updated pods |
| `Outcomes.RollbackOutcome` | internal/controller/autoupdate.go:442-604 | the whole state after a rollback step: given up without a previous version; a recorded backup is restored with the workload scaled down and its pods gone; then, restored or not, the previous tag is back, the failed version remembered and the rollback counted |
| `Outcomes.UpdatingFirst` | internal/controller/autoupdate.go:247-255 | a pending update turns the phase to Updating before anything else |
| `Outcomes.ApplyOutcome` | internal/controller/autoupdate.go:280-362 | the whole state after an update is applied: new tag, old tag on record, workload back, health check begun or update over |
| `Outcomes.ApplyFails` | internal/controller/autoupdate.go:291-315 | a failing tag patch gives the update up with the old tag, a failing scale-up with the new one, and both bring the workload back |
| `Outcomes.QuiesceOutcome` | internal/controller/autoupdate.go:672-694 | before a backup the workload is scaled down, then its pods are waited for, and no Job is created meanwhile |
| `Outcomes.UnreadableOutcome` | internal/controller/autoupdate.go:696-700 | with the workload down, a missing or unusable Secret gives the update up and scales up |
| `Outcomes.JobOutcome` | internal/controller/autoupdate.go:707-748 | the backup Job is created with the path of the instance, waited for, and, if it fails, ends the update |
| `Outcomes.BackedUpOutcome` | internal/controller/autoupdate.go:257-278 | a completed Job, or no workload to back up, lets the update be applied, with an empty path on record |
| `Outcomes.SuspendedOutcome` | internal/controller/openclawinstance_controller.go:242-267 | a suspended instance is scaled to nothing and reports so, whatever is pending |
| `Outcomes.FailureOutcome` | internal/controller/openclawinstance_controller.go:198-240 | an error before, at or after the StatefulSet leaves the instance Failed for two minutes, with the StatefulSet written exactly in the last case |
| `Outcomes.WritesOnlyChanges` | internal/controller/openclawinstance_controller.go:315-323 | the status is written if and only if the phase or a condition changed |
| `Outcomes.FinalizerOutcome` | internal/controller/openclawinstance_controller.go:144-152 | a new instance gets its finalizer first |
| `Outcomes.StartingOutcome` | internal/controller/openclawinstance_controller.go:154-176 | then the phase Pending, then the version of the tag "latest" if the registry answers, and otherwise the course of any provisioned instance |
| `Freshness.NoVersionReturns` | internal/controller/autoupdate.go:163-211 | if the answers the registry gives never decrease, no confirmed or rolled-back version is announced again over the whole run |
| `Freshness.RolledBackAtMostOnce` | internal/controller/autoupdate.go:475-483 | under the same condition each version is rolled back at most once per run |
| `Freshness.OtherSpellingReturns` | internal/controller/autoupdate.go:190-203 | without equal tags for equal versions a failed version does come back |
| `Freshness.AppendingRegistryClimbs` | internal/registry/resolver.go:78-104 | a registry whose list, whenever it is asked, extends the lists it was asked about before meets the condition |
| `DeletionDeadline.FinalizerGoesForAReason` | internal/controller/backup.go:53-262 | whatever calls fail, the finalizer goes only on skip annotation, persistence off, missing credentials, timeout or a completed backup Job |
| `DeletionOutcomes.LetGoExactly` | internal/controller/backup.go:53-262 | an error-free reconcile removes the finalizer if and only if there is nothing to save, the deadline has passed, or, with nothing running on the volume, there are no credentials or the backup Job is complete |
| `DeletionOutcomes.SkippedOutcome` | internal/controller/backup.go:57-75 | with the skip annotation, or without a volume, the object goes at once |
| `DeletionOutcomes.FirstOutcome` | internal/controller/backup.go:77-85 | a deletion that begins starts its clock and goes on as one that has begun |
| `DeletionOutcomes.LateOutcome` | internal/controller/backup.go:87-110 | past the timeout the object goes, and the clock is cleared |
| `DeletionOutcomes.QuiesceOutcome` | internal/controller/backup.go:112-146 | the workload is scaled down, then its pods are waited for, and nothing else happens meanwhile |
| `DeletionOutcomes.NoCredentialsOutcome` | internal/controller/backup.go:148-166 | without a Secret the object goes; an unusable one is asked for again |
| `DeletionOutcomes.StartOutcome` | internal/controller/backup.go:173-216 | a Job is created for the settled path, or for a new one that the status then holds |
| `DeletionOutcomes.JobOutcome` | internal/controller/backup.go:218-262 | a Job at work or failed is waited for, a completed one lets the object go |
| `DeletionOutcomes.PathsAreApart` | internal/controller/backup.go:173-175 | two backups, deletion or pre-update, go to one path only if tenant, instance, kind and stamp are the same, for parts without "/" |
| `Evidence.DeletionJobStartsUndisturbed` | internal/controller/backup.go:112-165 | in every state and whatever fails: a reconcile creates the deletion Job only for an instance under deletion whose StatefulSet is absent or at zero replicas with no pods left |
| `Evidence.NothingRunsDuringDeletionBackup` | internal/controller/backup.go:112-262 | mutual exclusion in every run, whatever fails: an unfinished deletion Job beside a StatefulSet means zero replicas and no pods |
| `DeletionDeadline.DeletionStartsTheClock` | internal/controller/backup.go:70-90 | in every run the first error-free reconcile of a deletion ends it or starts the clock |
| `DeletionDeadline.DeletionEndsInTime` | internal/controller/backup.go:92-110 | with every reconcile no later than its requeue asks and options unchanged meanwhile, the object is gone less than timeout plus 30 seconds after BackingUpSince |
| `DeletionDeadline.DeadlineIsLostExactly` | internal/controller/backup.go:92-110 | for every fate of the calls, the start time is lost with the object still there if and only if the timeout status write succeeds and the finalizer update does not, by an error or a stop |
| `DeletionDeadline.LostDeadlineIsStuck` | internal/controller/backup.go:92-110 | such a loss beside a failed backup Job leaves the instance Terminating without a start time |
| `DeletionDeadline.StuckForever` | internal/controller/backup.go:232-262 | from there, beside a failed Job, no run of reconciles and time ends the deletion |
| `OwnerReferences.KeepOthers` | internal/controller/backup.go:329-342 | the in-place filter keeps exactly the foreign references in order, leaves the tail as it was, and reports a change exactly if there was one |
| `OwnerReferences.OthersAreExact` | internal/controller/backup.go:329-342 | no reference to the instance is left and none to anything else is lost |
| `OwnerReferences.OthersKeepTheirOrder` | internal/controller/backup.go:329-342 | what is kept of a list is what is kept of its parts, so order and number of the foreign references stay |
| `OwnerReferences.OthersTwice` | internal/controller/backup.go:336-338 | filtering again changes nothing, so a repeated deletion does not update the claim |
| `ConfigMerge.DeepMerge` | internal/controller/selfconfig_apply.go:159-174 | the Go loop, visiting keys in any order, computes the recursive merge; the generated dm is the same function |
| `ConfigStart.MergeScript` | internal/resources/statefulset.go:760-774 | the generated script, for whatever document the volume holds: forced paths deleted, then merged; null fails on any forced path, other roots spread into an object |
| `ConfigStart.StartIsExact` | internal/resources/statefulset.go:760-774 | what a start leaves on the volume for every document but arrays and strings: the operator config where it is copied or converted, and merged over the volume without its forced paths otherwise |
| `ConfigStart.ForcedOnVolume` | internal/resources/statefulset.go:760-774 | a forced path holds on the volume exactly what the operator config holds there |
| `ConfigMerge.Split` | internal/resources/statefulset.go:763-763 | splitting a dot path loses nothing: joined it is the path again, and no key contains a dot |
| `ConfigMerge.ForcedPathsAreExact` | internal/resources/statefulset.go:760-774 | for all trees and path lists, a forced path holds exactly what the operator config holds there, absence included |
| `ConfigMerge.OtherPathsKeepTheirValue` | internal/resources/statefulset.go:760-774 | a path not prefix-comparable with a forced one and not reached by the operator config keeps its value on the volume |
| `ConfigMerge.OperatorLeavesArrive` | internal/resources/statefulset.go:762-762 | every non-object value of the operator config is in the result |
| `ConfigMerge.OrderOfPathsIsIrrelevant` | internal/resources/statefulset.go:765-770 | neither order nor repetition of forced paths matters |
| `ConfigMerge.RestartIsIdempotent` | internal/resources/statefulset.go:3075-3089 | restarting on the result of a restart changes nothing |
| `ConfigStart.HookRepeatsInit` | internal/resources/statefulset.go:3056-3098 | the init container followed by the postStart hook equals either alone if and only if the volume did not hold a bare string with a forced letter the operator config does not set |
| `ConfigStart.ConfigSettles` | internal/resources/statefulset.go:3056-3098 | after the first pod start no sequence of pod and container restarts changes the config |
| `ConfigMerge.ForcedPathsThroughArrays` | internal/resources/statefulset.go:756-763 | seen through arrays a forced path is exact if and only if it names no element of an array on the volume that the operator config leaves in place and no shorter forced path takes away; such an element becomes null |
| `ConfigMerge.ForcedElementBecomesNull` | internal/resources/statefulset.go:756-763 | such an element becomes null |
| `Enrichment.BuildConfig` | internal/resources/configmap.go:58-96 | the nine steps in order with their guards; a document that is no object passes through; the value at every path is that of EnrichedPaths |
| `Enrichment.AddTrustedProxy` | internal/resources/configmap.go:546-577 | the search loop and the append |
| `Enrichment.AddBrowser` | internal/resources/configmap.go:390-448 | both profiles are redirected unless they name a URL or a port |
| `Enrichment.AddSkillPacks` | internal/resources/configmap.go:677-704 | pack entries are added, in any order, only where the user has none |
| `Enrichment.EnrichBySection` | internal/resources/configmap.go:50-96 | the interleaved steps equal four independent section updates |
| `Enrichment.EnrichIsIdempotent` | internal/resources/configmap.go:58-96 | enriching an enriched config changes nothing, for all configs and settings |
| `EnrichedPaths.GatewayFilled` | internal/resources/configmap.go:456-504 | where the user set nothing, gateway.mode is local, and gateway.bind is loopback with the proxy sidecar and 0.0.0.0 without it |
| `EnrichedPaths.OriginsFilled` | internal/resources/configmap.go:584-622 | controlUi.allowedOrigins holds the derived origins, in order, where the user set none and there are any |
| `EnrichedPaths.ProxiesFilled` | internal/resources/configmap.go:546-577 | gateway.trustedProxies holds the entries of the user, followed by 127.0.0.0/8 if it was not among them |
| `EnrichedPaths.AuthFilled` | internal/resources/configmap.go:145-180 | auth.mode, auth.token and auth.allowTailscale for every config and setting |
| `EnrichedPaths.OTelFilled` | internal/resources/configmap.go:215-260 | the three values of diagnostics.otel with metrics on and no opt-out |
| `EnrichedPaths.BrowserFilled` | internal/resources/configmap.go:390-448 | browser.defaultProfile, attachOnly and the cdpUrl of both profiles with the browser on |
| `EnrichedPaths.EntriesFilled` | internal/resources/configmap.go:677-704 | every entry of the packs where the user has none, and the entry of the user where there is one |
| `EnrichedPaths.ValuesAtPaths` | internal/resources/configmap.go:58-96 | these are the values found by walking the result along the path |
| `EnrichedPaths.NothingElseIsAdded` | internal/resources/configmap.go:58-96 | no other path is added, for every config |
| `ConfigExtension.EnrichExtendsExactly` | internal/resources/configmap.go:58-96 | everything the user set is kept, up to one appended trusted proxy, if and only if the config is well shaped for the enabled features |
| `ConfigExtension.SetValuesSurvive` | internal/resources/configmap.go:58-96 | path by path: every value set outside gateway.trustedProxies is unchanged in the result |
| `ConfigExtension.TokenOutcome` | internal/resources/configmap.go:145-201 | trusted-proxy mode never gains a token in config or environment and is never switched; otherwise the result holds the user token or the generated one |
| `SelfConfig.BuildSkillsApply` | internal/controller/selfconfig_apply.go:94-120 | the two loops compute the order-preserving duplicate-free list |
| `SelfConfig.SkillsAreExact` | internal/controller/selfconfig_apply.go:94-120 | as a set, (current plus adds) minus removes, without duplicates |
| `SelfConfig.SkillsKeepTheirOrder` | internal/controller/selfconfig_apply.go:94-120 | skills stand in the order in which they are first listed, the current ones before the added ones |
| `SelfConfig.SkillsAreStable` | internal/controller/selfconfig_apply.go:94-120 | repeating a request leaves the list as it is |
| `SelfConfig.BuildConfigApply` | internal/controller/selfconfig_apply.go:124-156 | error cases, protected keys and the merge |
| `SelfConfig.ConfigIsPatched` | internal/controller/selfconfig_apply.go:124-156 | every value of an accepted patch arrives, and what the patch does not reach stays |
| `SelfConfig.BuildWorkspaceFilesApply` | internal/controller/selfconfig_apply.go:178-196 | (current minus removes) plus adds, in any visiting order |
| `SelfConfig.FilesAreExact` | internal/controller/selfconfig_apply.go:178-196 | file by file: present exactly if added, or there and not removed, with the added content first |
| `SelfConfig.FilesAreStable` | internal/controller/selfconfig_apply.go:178-196 | repeating a request leaves the files as they are |
| `SelfConfig.BuildEnvApply` | internal/controller/selfconfig_apply.go:200-245 | rejects protected names and otherwise computes the merged list |
| `SelfConfig.EnvIsExact` | internal/controller/selfconfig_apply.go:200-245 | as a map, (current minus removes) plus adds if and only if no new name is assigned two values |
| `SelfConfig.EnvKeepsItsOrder` | internal/controller/selfconfig_apply.go:219-242 | variables that stay keep their order, and new names follow in the order of their first assignment |
| `SelfConfig.DistinctIsUnambiguous` | internal/controller/selfconfig_apply.go:214-217 | distinct add names meet that condition |
| `SelfConfig.EnvIsStable` | internal/controller/selfconfig_apply.go:200-245 | repeating a request leaves the map as it is if and only if no name that is new and not removed is assigned two values |
| `SelfConfig.RepeatedNameFlips` | internal/controller/selfconfig_apply.go:219-242 | a name assigned twice takes the first value and, when repeated, the second |
| `SelfConfig.RequestsAreConfined` | internal/controller/selfconfig_apply.go:58-90 | no sequence of requests changes the gateway subtree or a protected variable, and a field whose action is never allowed never changes |
| `SelfConfig.OperatorVariablesStay` | internal/controller/selfconfig_apply.go:38-55 | no sequence of requests sets, changes or removes OPENCLAW_GATEWAY_TOKEN or any other variable of the operator, each by name |
| `SelfConfig.RejectedExactly` | internal/controller/selfconfig_apply.go:58-156 | a request is rejected if and only if it asks for an action that is not allowed, brings a patch that is no object or touches the gateway, meets a config that is no object, or names a variable of the operator |
| `SelfConfig.AcceptedChanges` | internal/controller/selfconfig_apply.go:262-305 | an accepted request changes exactly the fields it speaks of |
| `SkillPackScript.DataVolume.SyncPacks` | internal/resources/statefulset.go:1073-1115 | the script with its three loops, early break included, has the effect of its command sequence |
| `SkillPackScript.DataVolume.RemoveAndPrune` | internal/resources/statefulset.go:1034-1039 | rm and the upward rmdir loop |
| `SkillPackSync.ManifestRoundTrip` | internal/resources/statefulset.go:1095-1096 | reading the printed manifest returns the paths, if none contains a newline |
| `SkillPackSync.SyncIsExact` | internal/resources/statefulset.go:1073-1115 | a sync removes exactly the outdated files, writes exactly the declared ones and leaves a manifest of exactly the declared paths |
| `SkillPackHistory.RestartsConverge` | internal/resources/statefulset.go:1059-1072 | stopped any number of times at any command, torn writes included, and run again, a revision ends in the same files and manifests |
| `SkillPackDirs.DirectoriesConvergeExactly` | internal/resources/statefulset.go:1029-1042 | and in the same directories if and only if it was not stopped before an rmdir that would carry on a chain, in a directory the revision does not need and no dropped file lay in |
| `SkillPackDirs.PruningIsExact` | internal/resources/statefulset.go:1034-1039 | a cleanup prunes a directory only if nothing is left in it, and leaves none empty that a dropped file lay in or that it took a subdirectory from |
| `SkillPackHistory.HistoryIsExact` | internal/resources/statefulset.go:1059-1115 | after any history of syncs, interruptions, changing revisions and user edits: manifest of the last revision, declared contents, every path the revision completed before it declared and it dropped absent, and paths never declared untouched |
| `SkillPackHistory.ManifestIsLast` | internal/resources/statefulset.go:1113-1113 | throughout a history the manifest on the volume is that of the last completed revision |
| `SkillPackHistory.AbandonedRevisionLeavesFiles` | internal/resources/statefulset.go:1100-1113 | new files of a revision that is interrupted and replaced stay, in no manifest |
| `SkillPackHistory.CleanupStaysInside` | internal/resources/statefulset.go:1029-1042 | whatever the manifest text, only entries that are not empty, not absolute and without two dots in a row are removed |
| `SkillPackHistory.RestartLeavesDirectory` | internal/resources/statefulset.go:1036-1039 | a volume with one pack file two directories down keeps the upper directory if it is stopped between the two rmdirs |
| `SkillPackHistory.SampleLeavesDirectory` | internal/resources/statefulset.go:1036-1039 | a concrete such volume |
| `ManagedFiles.ManagedFile.OcwApply` | internal/resources/workspace_files.go:153-169 | the shell function, for every way it can end |
| `ManagedFiles.HelperRefinesIdeal` | internal/resources/workspace_files.go:153-169 | over every run of applies, interruptions, failed copies, edits and deletions, a regular destination is rewritten exactly if missing, never applied, or applied from another source |
| `ManagedFiles.EditsSurvive` | internal/resources/workspace_files.go:146-148 | an edit survives every apply of the same source |
| `ManagedFiles.SpecialFilesStay` | internal/resources/workspace_files.go:155-162 | symlinks and other non-regular destinations are never changed |
| `ManagedFiles.RetryConverges` | internal/resources/workspace_files.go:166-168 | applying again after an attempt that went wrong brings the content, except after a copy that failed over an existing file |
| `ManagedFiles.FailedCopyIsForgotten` | internal/resources/workspace_files.go:167-168 | such a copy is never made up for |
| `Keys.KeyRoundTrip` | internal/resources/skillpacks.go:114-116 | a key reads back as its path if and only if no "-" stands before "-" or "/" |
| `Keys.KeysAreInjective` | internal/resources/skillpacks.go:114-116 | encodings of such paths are distinct |
| `Keys.KeysCollide` | internal/resources/skillpacks.go:114-116 | without the condition they are not |
| `Keys.WorkspaceKeyRoundTrip` | internal/resources/workspace_configmap.go:132-149 | parsing returns name and file if and only if the name has no "--" and no "-" at its end, for every file name |
| `Keys.SchemaNamesRoundTrip` | api/v1alpha1/openclawinstance_types.go:462-462 | every name the schema admits meets that condition |
| `Keys.DefaultKeysAreApart` | internal/resources/workspace_configmap.go:130-134 | a clean relative path of the default workspace never takes a key of another one |
| `Keys.MarkersAreInjective` | internal/resources/workspace_files.go:133-139 | markers within one workspace are distinct for clean paths |
| `Keys.MarkersNameTheirWorkspace` | internal/resources/workspace_files.go:133-139 | markers of two additional workspaces are distinct |
| `Keys.MarkersCollideExactly` | internal/resources/workspace_files.go:133-139 | a marker of the default workspace is that of workspace n and path q exactly for the path ws-n/q |
| `ShellQuote.QuoteRoundTrip` | internal/resources/statefulset.go:707-709 | the shell reads a quoted string as the one word it was, for every string |
| `ShellQuote.LineRoundTrip` | internal/resources/statefulset.go:707-709 | so for every argument of a line |
| `ShellQuote.ApplyLineRoundTrip` | internal/resources/workspace_files.go:172-178 | every rendered helper line is the command name and its four intended arguments |
| `ShellQuote.RootsAreOrdinary` | internal/resources/workspace_files.go:172-178 | the unquoted roots need no quoting, for every name the schema admits |
| `WorkspaceSeeds.FindManagedPolicy` | internal/resources/workspace_files.go:71-84 | the first entry for a path decides, Replace if it has no policy |
| `WorkspaceSeeds.FirstEntryDecides` | internal/resources/workspace_files.go:71-84 | the policy is that of the first index with the path |
| `WorkspaceSeeds.FallbackPolicies` | internal/resources/workspace_files.go:40-93 | without an entry a path follows its workspace, an additional workspace without a policy follows the top level, and the default is CreateOnly |
| `WorkspaceSeeds.LinesAreExact` | internal/resources/statefulset.go:815-1003 | a path has a managed line, with the hash of its source, if and only if it has a source and the policy Replace; any other declared path is seeded once |
| `WorkspaceSeeds.PackLinesAreExact` | internal/resources/statefulset.go:815-1003 | pack files are seeded once or copied always by the policy for packs, and nothing else is copied always |
| `WorkspaceSeeds.InjectedExactly` | internal/resources/workspace_configmap.go:44-128 | which files the operator injects into which workspace, and with which text |
| `WorkspaceSeeds.ExtraSources` | internal/resources/workspace_files.go:272-318 | an additional workspace is seeded with its own files over those resolved under its name, and with the packs resolved under its name |
| `WorkspaceSeeds.DefaultSources` | internal/resources/workspace_files.go:257-307 | the default workspace is seeded with the inline files over the external ones, and with the packs of the instance |
| `WorkspaceSeeds.BuildWorkspaceConfigMap` | internal/resources/workspace_configmap.go:44-128 | the successive overwrites, in any visiting order, give the data by priority |
| `WorkspaceSeeds.SourceKeysExist` | internal/resources/statefulset.go:815-1003 | every source key the script names is a key of the ConfigMap |
| `WorkspaceSeeds.HashesAgree` | internal/resources/workspace_files.go:257-318 | the hash of a managed line is that of its source, and the ConfigMap holds that source under the key, or the operator text under an injected name |
| `WorkspaceSeeds.ConfigMapMatchesScript` | internal/resources/statefulset.go:815-1003 | for every declaration whose encodings are distinct: keys exist, and a hash matches the content if and only if the path is not injected or the two hashes coincide |
| `WorkspaceSeeds.HelperIsDefined` | internal/resources/workspace_files.go:95-119 | a script that calls the helper defines it |

## Left out

- API server, informer cache, conflicts and field ownership: a call succeeds, fails or does not happen. A retryable
  conflict while resources are reconciled, which returns without the Failed status, is the case of a stop there.
- A Job that appears between the controller's read and its create: the create fails like any other call.
- The response of a patch refreshing the controller's copy of the status: library behaviour that is not shown.
- The steps of reconcileResources around the StatefulSet, the restore gate, StatefulSet recreation for changed volume
  claim templates, cluster defaults: one call before and one after the StatefulSet stand for them.
- Status conditions and error texts: conditions enter only as the question whether they changed.
- Time and path formatting, tenant derivation, random tokens, SHA-256, JSON and version parsing: inputs, abstract
  functions, or already parsed trees. Where a theorem needs it, the version parser is asked to reject the empty text.
- Manifest construction (RBAC, Service, Ingress, NetworkPolicy, monitoring, sidecars, probes), restore.go, the periodic
  backup CronJob, HTTP and caching in the registry resolver, skill-pack resolution: easy or foreign.
- Derivation of Control UI origins and combination of pack entries: inputs of the pipeline.
- Sorting of script lines: lines are a set, and inputs visited in Go's map order are taken in any order.
- ConfigStart.MergeScript: the key `__proto__` is taken for an ordinary one, and a string contributes its characters,
  not its UTF-16 units; path deletion works on values, so sharing between subtrees is not captured (parsed JSON has none).
- Enrichment.BuildConfig: the document `null`, on which the Go code panics, is excluded.
- SkillPackSync.SyncIsExact: paths are taken literally, so two spellings of one file are two files; commands succeed
  unless a file stands where a directory is needed or the other way round, and then they have no effect.
- ManagedFiles.HelperRefinesIdeal: the hash is asked to tell apart the sources of the run, since no function of fixed
  length tells all texts apart.
