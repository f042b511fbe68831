# Verification of the Liqo upgrade controller

The controller drives a `LiqoUpgrade` resource through phases. In each phase it watches one
Kubernetes Job whose shell script changes the cluster; it records what succeeded, starts the
next job, and on failure starts a rollback job. This project models that protocol, the job
scripts and the version arithmetic of the compatibility gate in Dafny, and proves what the
whole guarantees. `dafny verify dfyconfig.toml` checks it.

## How it is built

- `Api.dfy`, `Names.dfy`, `Cluster.dfy`: the resource, the jobs, the cluster, and two relations on
  the cluster: `Work`, what a job of each kind may do at any moment, and `Goal`, what holds when
  it exits with 0.
- `Protocol.dfy`: a reconcile as a *plan* of API calls. Each call may be refused, or applied
  without the answer arriving; "already exists" counts as success.
- `Controller.dfy`: the reconciler's methods in the form of the Go code, working on a mutable copy of the
  resource, each proved to make exactly the calls of the plan under every sequence of faults.
- `Runs.dfy`: the transition system. A reconcile advances call by call, interleaved with everything
  else: it may be cut off between any two calls, jobs work, end and expire, gateways are recreated by
  other controllers, the upgrade may be deleted. `Latest` and `Reached` read the history.
- `Invariant.dfy`, `Preservation.dfy`, `Decisions.dfy`: the invariant, and that every step keeps it.
- `Safety.dfy`, `Restoration.dfy`, `Successes.dfy`: what follows for all runs: their safety, what a rollback
  brings back, and which success a rollback job is told of.
- `Outcomes.dfy`: what one reconcile comes to in each phase, undisturbed and with failing calls, told by its result.
- `Recovery.dfy`, `Progress.dfy`, `Limits.dfy`: what the next reconciles make of faults, when upgrades end, and
  what does not hold, by runs that show it.
- `Scripts.dfy`, `Composition.dfy`: the scripts as methods over a cluster object, proved against `Work` and
  `Goal`, and the proof that such a script is a stretch of a run of the protocol.
- `Versions.dfy`, `Images.dfy`, `Backup.dfy`, `Strings.dfy`: version order, gate, image tags, environment backup.

## Findings

- Verifying does not exclude rollback from completion: if the status write after the creation of a rollback
  job is lost, the next verification may pass and the upgrade completes while the rollback job runs
  (`CompletedWhileRollingBack`). `CompletedExcludesRollback` gives the exact condition.
- A stage's job can be created a second time, after it ended and expired, when the status write after its
  first creation was lost. `LAST_PHASE` then names the last stage whose *latest* job succeeded
  (`RollbackJobsAreRight`), not the last that ever did (`RecreatedJobHidesASuccess`). It names the last that
  ever did exactly if no stage was repeated in vain after a success (`RollbackJobsTellTheLastSuccess`).
- The gate looks at the oldest cluster only. Even with a matrix of forward upgrades, a cluster is protected
  exactly when it is as old as the oldest, and can be downgraded exactly when it is not
  (`GateProtectsOnlyTheOldest`). The comment in `config/default/compatibility-configmap.yaml` promises forward
  upgrades only.
- A job that ends and expires before a reconcile has seen it, say while the controller is down, leaves the upgrade waiting for
  good (`UnseenExpiryStrandsTheUpgrade`).
- With an empty `spec.namespace` jobs are created in `liqo` but looked up in the empty namespace: no such run gets past
  FreezingOperations, and deletion leaves its jobs behind.
- The repository's README says that a network-fabric failure rolls the fabric back and that templates are
  restored. The code goes back on the fabric only after a *successful* fabric job: after a failed one its
  components stay as they are (`FailedFabricIsLeftAlone`), so that an upgrade may end rolled back with ipam at the
  target (`RolledBackWithNewIpam`). Templates are never set back (`RolledBackMeansRestored`). The model follows the code.

## Model

| member | source | states |
|---|---|---|
| Safety.AtMostOneUnfinishedJob | internal/controller/crd_upgrade.go:68-82 | In every reachable world at most one job of the upgrade is unfinished, although any call may fail, any reconcile be cut off and any finished job expire |
| Safety.StatusGoesForward | internal/controller/liqoupgrade_controller.go:90-116 | Along every run phase and LastSuccessfulPhase never go back; Completed and Failed are final |
| Safety.ConditionsTellThePath | internal/controller/verification.go:66-80 | Conditions are [Compatible] from freezing to verifying, [Compatible, Healthy] when completed, [Compatible, RollbackRequired] when rolling back or rolled back, without repetition even after retries; the stage counter fits the phase |
| Safety.CompletedHasAFullPast | internal/controller/verification.go:38-81 | Before Completed, freeze, CRD, controller-manager and fabric job were each created and succeeded, in this order, and then a verification saw a ready deployment at the target; previous version and environment backup are those of the cluster before; the target has the leading v |
| Safety.CompletedExcludesRollback | internal/controller/rollback.go:53-72 | In a completed upgrade a rollback job was ever created if and only if the write of RollingBack was lost, or that of Failed after a creation without acknowledgement |
| Safety.CompletedIsAtTarget | internal/controller/network_fabric_upgrade.go:68-76 | In a completed upgrade a non-empty list of CRD files is applied at the target, every CRD file is there as before or at the target, templates are at the target and no environment changed; without that loss controller-manager, ipam, proxy and fabric are at the target too |
| Safety.ValidationWasPassed | internal/controller/validation.go:54-139 | Every upgrade past validation passed all checks of one and the same validation: deployment and version read, backup possible, a replica ready, and the target listed under the exact string of the oldest version, which no reporting cluster precedes; with a forward-only matrix the target is later than it |
| Safety.SwitchedOffMeansNoRollback | internal/controller/rollback.go:41-46 | With autoRollback false no run ever creates a rollback job, enters RollingBack or sets rolledBack |
| Safety.FinalizerComesFirst | internal/controller/liqoupgrade_controller.go:79-87 | No job is created and no phase is written before the finalizer is in place |
| Outcomes.FailedStageIsRolledBack | internal/controller/rollback.go:37-73 | A reconcile that sees the job of its stage failed ends in RollingBack with the rollback job there, exactly if autoRollback is not false and the job can be owned, and otherwise in Failed with no new job |
| Outcomes.VerificationDecides | internal/controller/verification.go:38-81 | Verifying ends in Completed exactly if a replica is ready and the version is the target, and otherwise as a failed stage does |
| Outcomes.RollbackJobDecides | internal/controller/rollback.go:75-101 | RollingBack ends in Failed, with rolledBack as the job ended |
| Outcomes.SuccessfulStageLeadsOn | internal/controller/crd_upgrade.go:68-78 | After a success exactly the stage is recorded, the next stage's number and phase are written and its job is the only new one; verification follows the last |
| Outcomes.ValidationDecides | internal/controller/validation.go:54-139 | Validating leads to FreezingOperations with its job, version and backup on record, exactly if every single check passes, and otherwise to Failed with no job |
| Outcomes.NothingToDo | internal/controller/freeze_operations.go:63-77 | A running, absent or unreadable job and a final phase leave status and jobs alone |
| Outcomes.NobodyHome | internal/controller/liqoupgrade_controller.go:63-77 | An upgrade that cannot be read, is gone, or is deleted without its finalizer is left alone, without a call |
| Outcomes.NewUpgradeIsValidated | internal/controller/validation.go:43-52 | A new upgrade is put into Validating at stage 0 of 9 |
| Outcomes.FailedCreationFails | internal/controller/crd_upgrade.go:48-53 | If the creation of the next stage's job reports an error the upgrade fails, and the job is there exactly if the call took effect |
| Outcomes.FailedRollbackCreationFails | internal/controller/rollback.go:53-58 | The same for the rollback job |
| Outcomes.FailedBackupFails | internal/controller/validation.go:105-108 | A backup that cannot be written fails the upgrade and starts nothing |
| Outcomes.FailedFreezeCreationFails | internal/controller/freeze_operations.go:48-53 | So does the first job |
| Outcomes.FailedFirstWriteStops | internal/controller/crd_upgrade.go:70-76 | After an error on the finalizer or on the record of a success no job is created |
| Outcomes.DetectionReadsFirstImage | internal/controller/validation.go:165-176 | The version seen is the tag of the first container, with a leading v |
| Safety.RollbackJobsAreRight | internal/controller/rollback.go:309 | Every rollback job ever created carries the version found by validation, and as LAST_PHASE the last stage whose latest job succeeded (none after freeze or CRD failures) |
| Safety.StageJobsAreRight | internal/controller/controller_manager_upgrade.go:196 | Every stage job ever created carries the target version, the job namespace and the backup's name |
| Safety.UntouchedUntilItsStage | internal/controller/controller_manager_upgrade.go:144-174 | In every reachable world workloads have the containers, environments and arguments of before and images as before or set as a whole to target or original version; CRDs, controller-manager and fabric are as before until a job of their stage is created |
| Restoration.RolledBackMeansRestored | internal/controller/rollback.go:85-91 | RolledBack implies controller-manager at PreviousVersion, the fabric untouched if its job was never created, back at PreviousVersion if it had succeeded; templates stay at the target |
| Restoration.RollbackFixesImages | internal/controller/rollback.go:144-170 | After a rollback the whole image lists are determined: controller-manager is the original one set to PreviousVersion, and so are ipam, proxy and fabric unless the fabric job was never created (then they are untouched) or failed |
| Restoration.RollbackRestoresTheRest | internal/controller/rollback.go:194-292 | If everything was at PreviousVersion before, a rollback gives back the original cluster, except for CRDs and, once the fabric job exists, templates and gateways, and ipam, proxy and fabric only if that job failed |
| Restoration.CompletionFixesImages | internal/controller/network_fabric_upgrade.go:204-304 | In a completed upgrade without an overlooked rollback, controller-manager, ipam, proxy and fabric are the original ones set to the target |
| Restoration.TemplateIsPatched | internal/controller/network_fabric_upgrade.go:188-196 | A template that passes the check, and did not mention the target before, has the gateway, wireguard and geneve image of the target in first, second and third place |
| Successes.RollbackJobsTellTheLastSuccess | internal/controller/rollback.go:309 | LAST_PHASE of every rollback job is the last stage that ever succeeded, if and only if no stage was created again after a success without succeeding since; in particular if no stage was created twice |
| Successes.RunKeepsHistory | internal/controller/crd_upgrade.go:68-82 | In every history a job ends only while it runs, and a stage's job is only there after the stage before it succeeded |
| Safety.FailedFabricIsLeftAlone | internal/controller/rollback.go:194-292 | Once the fabric job has failed, its components and templates stay as it left them for the rest of the run |
| Runs.MilestonesInOrder | internal/controller/network_fabric_upgrade.go:68-76 | Reached means increasing positions of the milestones in the history |
| Decisions.RunKeepsInv | internal/controller/liqoupgrade_controller.go:60-117 | The invariant of statuses, pending calls, jobs, history and cluster holds in every reachable world |
| Decisions.StartIsOk | internal/controller/freeze_operations.go:37-56 | Starting a stage keeps the invariant wherever it is interrupted, whatever the job does before the status is written |
| Decisions.StartRollbackIsOk | internal/controller/rollback.go:37-73 | The same for starting a rollback, or failing without one |
| Decisions.RollbackJobIsOk | internal/controller/rollback.go:103-113 | In the phase of a failed job, LastSuccessfulPhase is the last success, so the job built from it is right |
| Decisions.ValidateIsOk | internal/controller/validation.go:54-139 | Every plan of a validation keeps the invariant, and goes on to freezing only through the gate and the backup |
| Preservation.WorkKeepsCluster | internal/controller/rollback.go:194-292 | What the one running job does to the cluster keeps the cluster's part of the invariant |
| Recovery.CutOffReconcileIsMadeUpFor | internal/controller/controller_manager_upgrade.go:48-76 | A reconcile cut off after any of its calls and repeated later with the same job outcome, whatever the jobs did to the cluster meanwhile, ends in the same status, with a successor job of the same spec and no other |
| Recovery.ReconcileIsARun | internal/controller/liqoupgrade_controller.go:60-117 | A whole reconcile with any faults is one way for a run to go on, so all theorems on runs hold of the methods |
| Recovery.AbsentJobMeansWaiting | internal/controller/freeze_operations.go:63-66 | Once the job of the phase is absent and no write is pending, no continuation of the run ever changes the status |
| Recovery.UnseenExpiryStrandsTheUpgrade | internal/controller/freeze_operations.go:60-85 | A watched job that expires before a reconcile has seen its end strands the upgrade in its phase for good |
| Recovery.EmptyNamespaceStaysInFreezing | internal/controller/freeze_operations.go:80-85 | No run with an empty spec.namespace gets past FreezingOperations; its jobs are all in liqo |
| Recovery.DeletionCleansUp | internal/controller/helpers.go:75-99 | An undisturbed deletion leaves no job of the upgrade if and only if spec.namespace is set (or there was none), and never touches another upgrade's jobs |
| Recovery.DeletionPassesOverFaults | internal/controller/helpers.go:78-95 | Whichever deletes are refused, exactly those jobs remain; all others go, and so does the finalizer unless its removal is refused |
| Progress.IdleIsOrderlyOrStuck | internal/controller/liqoupgrade_controller.go:90-116 | In every reachable world between two reconciles, whatever faults came before, the upgrade is either in order for the next row or waits for good |
| Progress.OrderlyRunsEnd | internal/controller/liqoupgrade_controller.go:90-116 | When calls succeed and every job ends and is seen to, a measure falls with each round: the run is Completed or Failed after at most 16 rounds and 8 phase changes |
| Progress.RoundMakesProgress | internal/controller/liqoupgrade_controller.go:90-116 | One round, from any orderly state and with any observation, lowers the measure |
| Limits.UpgradesCanComplete | internal/controller/validation.go:90-138 | Every upgrade that passes the gate, in a cluster whose components can be set, has a run that completes |
| Limits.CompletedWhileRollingBack | internal/controller/verification.go:48-61 | From every world in Verifying at the target, a lost status write leads to Completed with an unfinished rollback job |
| Limits.RecreatedJobHidesASuccess | internal/controller/crd_upgrade.go:68-82 | From every world with a running CRD job there is a run in which a manager job succeeds and the rollback job is still told UpgradingCRDs |
| Limits.RolledBackWithNewIpam | internal/controller/rollback.go:194-292 | From every world with a running fabric job there is a run that ends rolled back with ipam at the target |
| Composition.ScriptIsARun | internal/controller/rollback.go:115-309 | The states a script goes through, and its exit, are steps of the protocol, whatever the reconciler does in between |
| Controller.Reconciler.ReconcileUpgrade | internal/controller/liqoupgrade_controller.go:60-117 | Reconcile makes exactly the API calls of Protocol.Reconcile, with any faults |
| Controller.Reconciler.UpdateStatus | internal/controller/helpers.go:36-67 | updateStatus merges exactly the given fields and persists the result, or reports the error |
| Controller.Reconciler.DeleteUpgrade | internal/controller/helpers.go:75-99 | handleDeletion's loop over the five prefixes, then the finalizer |
| Controller.Reconciler.StartStage | internal/controller/crd_upgrade.go:37-56 | The start functions of the four stages: job, then phase; Failed if the job cannot be created |
| Controller.Reconciler.MonitorStage | internal/controller/controller_manager_upgrade.go:58-86 | The monitors of the four stages |
| Controller.Reconciler.BeginRollback | internal/controller/rollback.go:37-73 | startRollback with its three ways out |
| Controller.Reconciler.MonitorRollback | internal/controller/rollback.go:75-101 | monitorRollback records the outcome of the rollback job |
| Controller.Reconciler.PerformValidation | internal/controller/validation.go:54-139 | performValidation, check by check |
| Controller.Reconciler.BackupEnvironmentConfig | internal/controller/validation.go:197-303 | The backup is written and recorded in the status only if every step went well; a deployment that is gone is an error |
| Controller.Reconciler.DetectDeployedVersion | internal/controller/validation.go:151-177 | The version read off the deployment |
| Controller.Reconciler.PerformVerification | internal/controller/verification.go:38-81 | performVerification: complete, or roll back |
| Scripts.Script.RunFabric | internal/controller/network_fabric_upgrade.go:100-600 | Stage 3 exits with 0 if and only if the copies were made, both templates pass their check, each present ipam, proxy and fabric could be set and became healthy, every listed GatewayClient and GatewayServer could be annotated, and every listed gateway showed the target in all three images at its reads, between which other controllers act; then each present component has exactly the target image |
| Scripts.Script.RecreateGateways | internal/controller/network_fabric_upgrade.go:312-447 | For any tenants, only gateways change; the loops go through if and only if all listed resources can be annotated, and the count is then theirs |
| Scripts.Script.GatewaysAreUpdated | internal/controller/network_fabric_upgrade.go:520-582 | The final check passes if and only if each listed gateway is there at its three reads with the target in the image of the container read; so each of these images was seen at the target |
| Scripts.ImageNamedIsThatContainers | internal/controller/network_fabric_upgrade.go:533-539 | With distinct container names, reading an image by name gives that container's image, and nothing for a name that does not occur |
| Scripts.PatchedTemplateMakesGoodGateway | internal/controller/network_fabric_upgrade.go:188-196 | A gateway made from a patched template passes the final check, and setting its containers by name, as rollback does, to the same version changes nothing |
| Scripts.Script.RunManager | internal/controller/controller_manager_upgrade.go:100-196 | Stage 2 exits with 0 if and only if the copy was made, the container exists and was set, rollout and wait went well and the deployed tag is the target; nothing but its image changes |
| Scripts.Script.SetFabric | internal/controller/rollback.go:257-289 | ipam, proxy and fabric are set in order, each only if those before it went well, with exactly these images |
| Scripts.Script.RestoreGateways | internal/controller/rollback.go:203-251 | Over all tenants the count is that of the listed WireGuard clients and servers, only gateways change, restored are exactly those that were there and set without error, and each of them had all its previous images at some moment |
| Scripts.Script.RunRollback | internal/controller/rollback.go:115-309 | Rollback exits with 0 if and only if the backup could be copied, controller-manager went back and, if LAST_PHASE is UpgradingNetworkFabric, the fabric too; CRDs and templates are never changed, the fabric and its gateways only then |
| Scripts.Script.RunCrd | internal/controller/crd_upgrade.go:108-156 | The counters are the files applied without error and the rest, a failure does not keep the rest from being applied, and exit 0 is equivalent to a non-empty list, no failure and at least 15 CRDs counted |
| Scripts.Poll | internal/controller/network_fabric_upgrade.go:417-433 | A poll loop ends after at most 30 polls and warns exactly if none saw the condition |
| Cluster.WorkComposes | internal/controller/rollback.go:139-292 | What a job may do is closed under composition, so its runs can be cut into steps anywhere |
| Cluster.WorkStaysWithinReach | internal/controller/rollback.go:139-292 | Jobs of both versions, one after the other in any number, leave each component as it was or set as a whole to one of the two versions |
| Cluster.WorkKeepsWorkloads | internal/controller/controller_manager_upgrade.go:144-174 | No job changes containers, environments or arguments |
| Names.JobNamesAreInjective | internal/controller/liqoupgrade_controller.go:40-48 | No two pairs of stage and upgrade name share a job name |
| Versions.CompareVersions | internal/controller/validation.go:405-440 | compareVersions decides at the first differing component, missing ones being 0 |
| Versions.CompareMeaning | internal/controller/validation.go:405-440 | -1, 1 and 0 mean first difference smaller, larger, and none |
| Versions.CompareIsAntisymmetric | internal/controller/validation.go:405-440 | Results are -1, 0 or 1, opposite when swapped, 0 on equal strings |
| Versions.CompareIsTransitive | internal/controller/validation.go:405-440 | Transitivity over all strings and all numbers of components, strict where one side is |
| Versions.TrailingZeroIsIgnored | internal/controller/validation.go:417-437 | s, s.0 and vs compare equal |
| Versions.SuffixIsIgnored | internal/controller/validation.go:426-429 | Text after the digits of a component, such as a pre-release label, does not count |
| Versions.VersionsAreDense | internal/controller/validation.go:417-437 | Between any two versions there is a third |
| Versions.ReleasesCompareNumerically | internal/controller/validation.go:407-440 | On printed releases with components below 2^63 the order is the numeric order of the triples |
| Versions.OldestIsLeftmostMinimum | internal/controller/validation.go:387-403 | The minimum is a member, no later than any element, and the leftmost such, which is unique |
| Versions.OldestIgnoresOrder | internal/controller/validation.go:387-403 | Permuting the list gives a compare-equal minimum |
| Versions.FindMinimumVersion | internal/controller/validation.go:387-403 | findMinimumVersion computes it |
| Versions.GetRemoteClusterVersions | internal/controller/validation.go:360-383 | Each non-empty reported version is taken as it is; missing, empty and unreadable ones become the local one |
| Versions.ReportedVersionsCount | internal/controller/validation.go:86-87 | The minimum is the local version or a reported one, and no later than any of them |
| Versions.SilentClustersDoNotMatter | internal/controller/validation.go:361-381 | Such clusters, anywhere in the list, leave the minimum string identical |
| Versions.IsCompatible | internal/controller/validation.go:328-340 | Exact membership in the matrix entry |
| Versions.ForwardGateBeatsOldest | internal/controller/validation.go:84-100 | With a forward-only matrix the target is later than the oldest version |
| Versions.GateProtectsOnlyTheOldest | internal/controller/validation.go:84-100 | Every forward-only matrix upgrades a cluster if and only if it is as old as the oldest; some such matrix and target downgrade it if and only if it is later than the oldest |
| Images.Detect | internal/controller/validation.go:165-176 | A detected version has the leading v and no colon; there is none exactly for images without a colon |
| Images.DetectUndoesPrint | internal/controller/validation.go:165-176 | Detecting the version of repo:tag gives tag back if and only if tag starts with v |
| Images.PrintUndoesDetect | internal/controller/validation.go:165-176 | Every image with a detected version is some repo:tag with that tag, the leading v put before it where it was missing |
| Images.CutUndoesPrint | internal/controller/controller_manager_upgrade.go:185-191 | The scripts cut the tag off a one-colon image if and only if the tag holds no colon |
| Images.CutAgreesWithDetect | internal/controller/controller_manager_upgrade.go:185-191 | Controller and scripts read the same version |
| Backup.CollectEnvironment | internal/controller/validation.go:213-233 | The nested loops fill the map that BackupOf defines |
| Backup.KeysAreInjective | internal/controller/validation.go:217 | A key determines container and variable, container names having no underscore |
| Backup.BackupKeepsLiterals | internal/controller/validation.go:213-233 | Without clashes of names, the backup holds the last non-empty literal of every variable |
| Backup.BackupKeepsArgsAndCommand | internal/controller/validation.go:227-232 | Arguments and command of every container are stored under its own keys, joined by spaces |
| Backup.BackupMarksReferences | internal/controller/validation.go:221-224 | A variable that only has a valueFrom is marked as such |
| Backup.BackupHoldsNothingElse | internal/controller/validation.go:213-233 | Every key of the backup comes from arguments, a command, a literal or a reference of some container |
| Strings.SplitUndoesJoin | internal/controller/validation.go:414-415 | Splitting undoes joining for separator-free parts |
| Strings.ScanUndoesPrint | internal/controller/validation.go:426-429 | The lenient scan reads back every printed number below 2^63 |
| Strings.ScanIsLenient | internal/controller/validation.go:426-429 | Leading spaces are skipped, a sign is taken, what follows the digits is ignored, and values outside 64 bits count as 0 |
| Strings.ScanNeedsDigits | internal/controller/validation.go:426-429 | Text without a digit counts as 0 |
| Strings.ContainsMeansOccurs | internal/controller/network_fabric_upgrade.go:387-433 | The bash test finds a text exactly where it occurs |

## Left out

- One worker per upgrade and fresh reads: no stale caches, no second LiqoUpgrade on the same cluster, no edits of spec or status and no manual job deletion during a run.
- The reads of a reconcile are taken together at its beginning; between its writes anything may happen.
- Only the jobs change images of the modelled workloads; gateways may be recreated by others once a fabric job exists.
- `kubectl get` of an existing object is taken to find it; every other command, rollout, wait and listing has an arbitrary result.
- Messages, timestamps, logging, requeue delays, and the unused fields strategy and dryRun.
- The Kubernetes client, owner references beyond the namespace check, and garbage collection after deletion.
- YAML decoding of the compatibility matrix: it is a map, or not available.
- Restoring the environment and freezing operations: the rollback script only reads the backup, and the freeze script is a placeholder.
- The loops over critical variables, which print and, in stage 2, keep each value in a shell variable through `eval`; pod images and replica sets, which are only printed; and the copies under /tmp.
- WgGatewayClients and WgGatewayServers: their patches and deletions count only as an occasion for other controllers to rewrite gateways.
- Scripts.Script.RestoreGateways: a gateway that was set back need not stay so, because other controllers may rewrite it from its WireGuard resource at any time.
- Pre-release ordering: the scan ignores suffixes.
- Strings are sequences of code points; invalid UTF-8, the length limits of job names, and the scanner's limit of 2^30 characters are not modelled.
- The four start functions and the four monitors of the stages differ only in the stage; each group is one method with the stage as a parameter.
- The decisions, worlds and runs are values; in-place update is modelled for the resource's copy, the API server and the cluster that a script works on.
