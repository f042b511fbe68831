// The LiqoUpgrade resource (api/v1alpha1/liqoupgrade_types.go).  Messages,
// timestamps and the unused fields strategy and dryRun are left out.
module Api {
  import opened Wrappers

  datatype Phase =
    | NoPhase | Pending | Validating | FreezingOperations | CRDs | ControllerManager | NetworkFabric
    | Verifying | RollingBack | Completed | Failed
    | OtherPhase(text: string)   // any other string in the stored object

  datatype Condition = Compatible | Healthy | RollbackRequired

  datatype Status = Status(
    phase: Phase, previousVersion: string, backupName: string, backupReady: bool,
    lastSuccessfulPhase: Phase, currentStage: int, totalStages: int, rolledBack: bool,
    conditions: seq<Condition>)

  const FRESH := Status(NoPhase, "", "", false, NoPhase, 0, 0, false, [])

  /** Name, namespace and spec: fixed during a run. */
  datatype Upgrade = Upgrade(name: string, home: string, target: string, namespace: string, autoRollback: Option<bool>)

  /** Where jobs and backup are created: spec.namespace, by default "liqo". */
  function JobNamespace(u: Upgrade): (ns: string)
    ensures ns != ""
  {
    if u.namespace == "" then "liqo" else u.namespace
  }

  /** An owner reference may not cross namespaces: SetControllerReference fails otherwise. */
  predicate OwnsItsJobs(u: Upgrade) { u.home == JobNamespace(u) }

  function BackupName(u: Upgrade): (r: string) { "liqo-upgrade-env-backup-" + u.name }
}
