// The reconciler itself, method by method as in internal/controller, proved to make
// exactly the API calls that Protocol decides on, whatever calls fail.
module Controller {
  import opened Api
  import Backup
  import opened Cluster
  import Images
  import opened Names
  import opened Protocol
  import Strings
  import Versions
  import opened Wrappers

  /** The copy of the resource that a reconcile works on. */
  class LiqoUpgrade {
    const spec: Upgrade
    var status: Status

    constructor (spec: Upgrade, status: Status)
      ensures this.spec == spec && this.status == status
    {
      this.spec := spec;
      this.status := status;
    }
  }

  datatype CreateResult = Made | AlreadyExists | CreateError

  /** What updateStatus may set beyond the phase; absent entries leave their field alone. */
  datatype Updates = Updates(
    previousVersion: Option<string>, lastSuccessfulPhase: Option<Phase>, rolledBack: Option<bool>,
    conditions: Option<seq<Condition>>, backupReady: Option<bool>, backupName: Option<string>)

  const NOTHING := Updates(None, None, None, None, None, None)

  function OrElse<T>(o: Option<T>, x: T): (r: T) { if o.Some? then o.value else x }

  function Merged(s: Status, phase: Phase, more: Updates): (r: Status) {
    Status(phase, OrElse(more.previousVersion, s.previousVersion), OrElse(more.backupName, s.backupName),
           OrElse(more.backupReady, s.backupReady), OrElse(more.lastSuccessfulPhase, s.lastSuccessfulPhase),
           s.currentStage, s.totalStages, OrElse(more.rolledBack, s.rolledBack),
           OrElse(more.conditions, s.conditions))
  }

  class Reconciler {
    var store: Store
    var faults: seq<Fault>

    constructor (store: Store, faults: seq<Fault>)
      ensures this.store == store && this.faults == faults
    {
      this.store := store;
      this.faults := faults;
    }

    // -------------------------------------------------------------- client

    method NextFault() returns (f: Fault)
      modifies this`faults
      ensures f == Head(old(faults)) && faults == Tail(old(faults))
    {
      if |faults| > 0 {
        f, faults := faults[0], faults[1..];
      } else {
        f := Fine;
      }
    }

    method WriteStatus(u: Upgrade, s: Status) returns (ok: bool)
      modifies this
      ensures store == Call(u, old(store), Put(s, Done), Head(old(faults))).0
      ensures faults == Tail(old(faults)) && ok == Head(old(faults)).Fine?
    {
      var f := NextFault();
      match f {
        case Fine => store := store.(status := s);
        case Unacknowledged => store := store.(status := s);
        case Refused => store := store.(log := store.log + [Lost(s.phase)]);
      }
      ok := f.Fine?;
    }

    method CreateJob(u: Upgrade, stage: Stage, job: JobSpec) returns (r: CreateResult)
      modifies this
      ensures store == Call(u, old(store), Create(stage, job, Done, Done), Head(old(faults))).0
      ensures faults == Tail(old(faults)) && (r.CreateError? <==> !Head(old(faults)).Fine?)
      ensures r.AlreadyExists? ==> OwnKey(u, stage) in old(store).jobs
    {
      var f := NextFault();
      var key := JobKey(JobNamespace(u), stage, u.name);
      r := if !f.Fine? then CreateError else if key in store.jobs then AlreadyExists else Made;
      if !f.Refused? && key !in store.jobs {
        store := store.(jobs := store.jobs[key := Job(job, Running)], log := store.log + [Created(stage, job)]);
      }
    }

    method FindJob(u: Upgrade, stage: Stage, readable: bool) returns (job: Option<JobState>)
      ensures job == if readable then JobAt(store.jobs, LookupKey(u, stage)) else None
    {
      var key := JobKey(u.namespace, stage, u.name);
      job := if readable && key in store.jobs then Some(store.jobs[key].state) else None;
    }

    // ------------------------------------------------------------- helpers.go

    method UpdateStatus(up: LiqoUpgrade, phase: Phase, more: Updates) returns (ok: bool)
      modifies this, up
      ensures up.status == Merged(old(up.status), phase, more)
      ensures store == Call(up.spec, old(store), Put(up.status, Done), Head(old(faults))).0
      ensures faults == Tail(old(faults)) && ok == Head(old(faults)).Fine?
    {
      var s := up.status.(phase := phase);
      if more.previousVersion.Some? { s := s.(previousVersion := more.previousVersion.value); }
      if more.lastSuccessfulPhase.Some? { s := s.(lastSuccessfulPhase := more.lastSuccessfulPhase.value); }
      if more.rolledBack.Some? { s := s.(rolledBack := more.rolledBack.value); }
      if more.conditions.Some? { s := s.(conditions := more.conditions.value); }
      if more.backupReady.Some? { s := s.(backupReady := more.backupReady.value); }
      if more.backupName.Some? { s := s.(backupName := more.backupName.value); }
      assert s == Merged(up.status, phase, more);
      hide Merged;
      up.status := s;
      ok := WriteStatus(up.spec, up.status);
    }

    method FailUpgrade(up: LiqoUpgrade)
      modifies this, up
      ensures (store, faults) == Exec(up.spec, old(store), Fail(old(up.status)), old(faults))
    {
      var _ := UpdateStatus(up, Failed, NOTHING);
      ExecLast(up.spec, old(store), Fail(old(up.status)), old(faults));
    }

    method DeleteUpgrade(up: LiqoUpgrade)
      modifies this
      ensures (store, faults) == Exec(up.spec, old(store),
                if old(store.finalizer) then HandleDeletion(STAGES) else Done, old(faults))
    {
      if store.finalizer {
        ghost var plan := HandleDeletion(STAGES);
        for i := 0 to |STAGES|
          invariant plan == HandleDeletion(STAGES[i..])
          invariant Exec(up.spec, store, plan, faults)
                 == Exec(up.spec, old(store), HandleDeletion(STAGES), old(faults))
          invariant store.finalizer == old(store.finalizer)
        {
          var f := NextFault();
          if !f.Refused? { store := store.(jobs := store.jobs - {JobKey(up.spec.namespace, STAGES[i], up.spec.name)}); }
          assert STAGES[i..][1..] == STAGES[i + 1..];
          plan := HandleDeletion(STAGES[i + 1..]);
        }
        ExecLast(up.spec, store, RemoveFinalizer, faults);
        var f := NextFault();
        if !f.Refused? { store := store.(finalizer := false, gone := true); }
      }
    }

    // --------------------------------- freeze_operations.go, crd_upgrade.go,
    // ------------- controller_manager_upgrade.go, network_fabric_upgrade.go

    method StartStage(up: LiqoUpgrade, stage: Stage)
      requires !stage.Rollback?
      modifies this, up
      ensures (store, faults) == Exec(up.spec, old(store), Start(up.spec, old(up.status), stage), old(faults))
    {
      up.status := up.status.(currentStage := StageNumber(stage));
      if up.spec.home != JobNamespace(up.spec) { return; }
      var r := CreateJob(up.spec, stage, BuildJob(up.spec, up.status, stage));
      if r.CreateError? {
        FailUpgrade(up);
      } else {
        ghost var before := (store, faults);
        var _ := UpdateStatus(up, PhaseOf(stage), NOTHING);
        ExecLast(up.spec, before.0, Put(up.status, Done), before.1);
      }
    }

    /** The monitor of a stage: monitorFreezeOperations, monitorCRDUpgrade,
        monitorControllerManagerUpgrade or monitorNetworkFabricUpgrade. */
    method MonitorStage(up: LiqoUpgrade, stage: Stage, o: Observation)
      requires !stage.Rollback?
      modifies this, up
      ensures (store, faults) == Exec(up.spec, old(store), Monitor(up.spec, old(up.status), stage,
                if o.jobRead then JobAt(old(store.jobs), LookupKey(up.spec, stage)) else None), old(faults))
    {
      var job := FindJob(up.spec, stage, o.jobRead);
      if job == Some(Succeeded) {
        if stage.Freeze? {
          StartStage(up, Crd);
        } else {
          var ok := UpdateStatus(up, PhaseOf(stage), NOTHING.(lastSuccessfulPhase := Some(PhaseOf(stage))));
          if !ok { return; }
          match stage {
            case Crd => StartStage(up, Manager);
            case Manager => StartStage(up, Fabric);
            case Fabric =>
              ghost var before := (store, faults);
              var _ := UpdateStatus(up, Verifying, NOTHING);
              ExecLast(up.spec, before.0, Put(up.status, Done), before.1);
          }
        }
      } else if job == Some(FailedJob) {
        BeginRollback(up);
      }
    }

    // ------------------------------------------------------------ rollback.go

    method BeginRollback(up: LiqoUpgrade)
      modifies this, up
      ensures (store, faults) == Exec(up.spec, old(store), StartRollback(up.spec, old(up.status)), old(faults))
    {
      if up.spec.autoRollback.Some? && !up.spec.autoRollback.value {
        FailUpgrade(up);
        return;
      }
      if up.spec.home != JobNamespace(up.spec) {
        FailUpgrade(up);
        return;
      }
      var r := CreateJob(up.spec, Rollback, BuildJob(up.spec, up.status, Rollback));
      if r.CreateError? {
        FailUpgrade(up);
        return;
      }
      ghost var before := (store, faults);
      var _ := UpdateStatus(up, RollingBack,
        NOTHING.(conditions := Some(up.status.conditions + [RollbackRequired])));
      ExecLast(up.spec, before.0, Put(up.status, Done), before.1);
    }

    method MonitorRollback(up: LiqoUpgrade, o: Observation)
      modifies this, up
      ensures (store, faults) == Exec(up.spec, old(store), Monitor(up.spec, old(up.status), Rollback,
                if o.jobRead then JobAt(old(store.jobs), LookupKey(up.spec, Rollback)) else None), old(faults))
    {
      var job := FindJob(up.spec, Rollback, o.jobRead);
      if job.None? || job == Some(Running) { return; }
      var _ := UpdateStatus(up, Failed, NOTHING.(rolledBack := Some(job == Some(Succeeded))));
      ExecLast(up.spec, old(store), Put(up.status, Done), old(faults));
    }

    // ---------------------------------------------------------- validation.go

    method DetectDeployedVersion(o: Observation) returns (version: Option<string>)
      ensures version == if o.versionRead then DetectIn(store.cluster.manager) else None
    {
      if !o.versionRead || store.cluster.manager.None? || |store.cluster.manager.value| == 0 { return None; }
      var image := store.cluster.manager.value[0].image;
      var parts := Strings.Split(image, ':');
      Images.NoColonIsOnePart(image);
      if |parts| < 2 { return None; }
      var text := parts[|parts| - 1];
      if !("v" <= text) { text := "v" + text; }
      version := Some(text);
    }

    method StartValidation(up: LiqoUpgrade)
      modifies this, up
      ensures (store, faults) == Exec(up.spec, old(store), BeginValidation(old(up.status)), old(faults))
    {
      up.status := up.status.(totalStages := 9, currentStage := 0);
      var _ := UpdateStatus(up, Validating, NOTHING);
      ExecLast(up.spec, old(store), Put(up.status, Done), old(faults));
    }

    /** Creates or updates the ConfigMap; ok only if all of it went well. */
    method BackupEnvironmentConfig(up: LiqoUpgrade, o: Observation) returns (ok: bool)
      modifies this, up
      ensures if !o.backupRead || old(store).cluster.manager.None? || !OwnsItsJobs(up.spec) then
                !ok && store == old(store) && faults == old(faults)
              else
                && store == Call(up.spec, old(store), Save(Backup.BackupOf(old(store).cluster.manager.value), Done, Done),
                                 Head(old(faults))).0
                && faults == Tail(old(faults)) && ok == Head(old(faults)).Fine?
      ensures up.status == if ok then old(up.status).(backupName := BackupName(up.spec), backupReady := true)
                           else old(up.status)
    {
      if !o.backupRead || store.cluster.manager.None? { return false; }
      var envData := Backup.CollectEnvironment(store.cluster.manager.value);
      if up.spec.home != JobNamespace(up.spec) { return false; }
      var f := NextFault();
      if !f.Refused? { store := store.(backup := Some(envData)); }
      if !f.Fine? { return false; }
      up.status := up.status.(backupName := BackupName(up.spec), backupReady := true);
      return true;
    }

    method PerformValidation(up: LiqoUpgrade, o: Observation)
      requires up.status.phase.Validating?
      modifies this, up
      ensures (store, faults) == Exec(up.spec, old(store),
                Validate(up.spec, old(up.status), old(store).cluster.manager, o), old(faults))
    {
      hide Versions.Oldest, Backup.BackupOf, Images.Detect, Versions.Compare;
      ghost var s := up.status;
      if !o.identityRead || store.cluster.manager.None? { FailUpgrade(up); return; }
      var detected := DetectDeployedVersion(o);
      if detected.None? { FailUpgrade(up); return; }
      var local := detected.value;
      if o.remotes.None? { FailUpgrade(up); return; }
      var remote := Versions.GetRemoteClusterVersions(o.remotes.value, local);
      var minimum := Versions.FindMinimumVersion([local] + remote);
      if o.matrix.None? { FailUpgrade(up); return; }
      var compatible := Versions.IsCompatible(o.matrix.value, minimum, up.spec.target);
      if !compatible { FailUpgrade(up); return; }
      var backedUp := BackupEnvironmentConfig(up, o);
      if !backedUp { FailUpgrade(up); return; }
      if !o.ready { FailUpgrade(up); return; }
      up.status := up.status.(previousVersion := local);
      ghost var mid := (store, faults);
      var ok := UpdateStatus(up, Validating,
        NOTHING.(previousVersion := Some(local), conditions := Some([Compatible]),
                 backupReady := Some(up.status.backupReady), backupName := Some(up.status.backupName)));
      if ok {
        StartStage(up, Freeze);
      } else {
        ExecAfterFault(up.spec, mid.0, ValidationFinished(up.spec, s, local, true), mid.1);
      }
    }

    // -------------------------------------------------------- verification.go

    method PerformVerification(up: LiqoUpgrade, o: Observation)
      modifies this, up
      ensures (store, faults) == Exec(up.spec, old(store),
                Verify(up.spec, old(up.status), old(store).cluster.manager, o), old(faults))
    {
      if !o.ready { BeginRollback(up); return; }
      var deployed := DetectDeployedVersion(o);
      if deployed.None? { BeginRollback(up); return; }
      if deployed.value != up.spec.target { BeginRollback(up); return; }
      var _ := UpdateStatus(up, Completed, NOTHING.(conditions := Some(up.status.conditions + [Healthy])));
      ExecLast(up.spec, old(store), Put(up.status, Done), old(faults));
    }

    // ------------------------------------------------ liqoupgrade_controller.go

    method ReconcileUpgrade(u: Upgrade, o: Observation)
      modifies this
      ensures (store, faults) == Reconcile(u, old(store), o, old(faults))
    {
      store := store.(log := store.log + [BeginEvent(store, o)]);
      if store.gone || !o.upgradeRead { return; }
      var up := new LiqoUpgrade(u, store.status);
      if store.deleting {
        DeleteUpgrade(up);
        return;
      }
      if !store.finalizer {
        var f := NextFault();
        if !f.Refused? { store := store.(finalizer := true); }
        if !f.Fine? {
          ExecAfterFault(u, WithEvent(old(store), BeginEvent(old(store), o)), Decide(u, old(store), o), old(faults));
          return;
        }
      }
      match up.status.phase {
        case NoPhase => StartValidation(up);
        case Pending => StartValidation(up);
        case Validating => PerformValidation(up, o);
        case FreezingOperations => MonitorStage(up, Freeze, o);
        case CRDs => MonitorStage(up, Crd, o);
        case ControllerManager => MonitorStage(up, Manager, o);
        case NetworkFabric => MonitorStage(up, Fabric, o);
        case Verifying => PerformVerification(up, o);
        case RollingBack => MonitorRollback(up, o);
        case Completed =>
        case Failed =>
        case OtherPhase(_) =>
      }
    }
  }

  /** The last call of a plan. */
  lemma ExecLast(u: Upgrade, store: Store, plan: Plan, faults: seq<Fault>)
    requires Length(plan) == 1
    ensures Exec(u, store, plan, faults) == (Call(u, store, plan, Head(faults)).0, Tail(faults))
  {
    assert Call(u, store, plan, Head(faults)).1.Done?;
  }

  /** A status or finalizer write that reports an error ends the reconcile. */
  lemma ExecAfterFault(u: Upgrade, store: Store, plan: Plan, faults: seq<Fault>)
    requires (plan.Put? || plan.AddFinalizer?) && !Head(faults).Fine?
    ensures Exec(u, store, plan, faults) == (Call(u, store, plan, Head(faults)).0, Tail(faults))
  {
  }
}
